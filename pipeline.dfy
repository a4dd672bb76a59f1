/** The stage loop of handle_sample (work.py:376-380, 438-456): the stages of PARSERS
    run in declaration order over one shared context; a stage's result is stored with
    store_recursive under the stage's name, and an exception from a stage, or from
    storing its result, is caught so that the later stages still run. */
module Pipeline {
  import opened Base
  import opened Tags
  import opened SharedContext
  import opened TitleStage
  import opened DateStage
  import opened AuthorStage
  import opened Flatten

  datatype Stage = TitleParser | DatesParser | AuthorsParser

  /** The names the dates dict is spread over. */
  const DateNames: seq<string> := ["received", "accepted", "published"]

  /** PARSERS: each stage with the name its result is stored under, in the order of the
      dict literal. */
  const Parsers: seq<(Name, Stage)> :=
    [(Column("title"), TitleParser), (Columns(DateNames), DatesParser), (Column("authors"), AuthorsParser)]

  /** A list of strings as a Python value. */
  function StrList(xs: seq<string>): (r: seq<Value>)
    ensures |r| == |xs| && forall i :: 0 <= i < |xs| ==> r[i] == Str(xs[i])
  {
    seq(|xs|, i requires 0 <= i < |xs| => Str(xs[i]))
  }

  /** A dict of strings as a Python value: the same keys in the same order. */
  function StrDict(d: Dict<string>): (r: Dict<Value>)
    ensures |r| == |d| && forall i :: 0 <= i < |d| ==> r[i] == (d[i].0, Str(d[i].1))
  {
    seq(|d|, i requires 0 <= i < |d| => (d[i].0, Str(d[i].1)))
  }

  /** A stage outcome with its value seen as a Python value. */
  function AsValue<T>(o: Outcome<T>, f: T -> Value): Outcome<Value> {
    match o
    case Found(x) => Found(f(x))
    case Insufficient(m) => Insufficient(m)
    case Raised(e) => Raised(e)
  }

  /** f(soup, context): what the stage gives back, and the context after it. */
  function RunStage(stage: Stage, doc: Doc, entries: map<string, Option<int>>): (Outcome<Value>, map<string, Option<int>>)
    requires WellFormed(doc)
  {
    match stage
    case TitleParser =>
      var r := TitleOutcome(doc, entries);
      (AsValue(r.0, (s: string) => Str(s)), r.1)
    case DatesParser =>
      var r := DatesOutcome(doc, entries, DateKeywords);
      (AsValue(r.0, (d: Dict<string>) => Dict(StrDict(d))), r.1)
    case AuthorsParser =>
      (AsValue(AuthorsOutcome(doc, entries), (ns: seq<string>) => List(StrList(ns))), entries)
  }

  /** The body of the try: a found value is stored (a failure inside store_recursive
      keeps the writes made before it); InsufficientParser or another exception from
      the stage stores nothing. */
  function Record(t: Tables, name: Name, o: Outcome<Value>): Tables {
    if o.Found? then Store(t, name, o.value, false).tables else t
  }

  /** The shared context and the tables, between two stages. */
  datatype Progress = Progress(entries: map<string, Option<int>>, tables: Tables)

  /** One pass of the loop over PARSERS: stage i runs on the context and its result is
      recorded. */
  function Step(doc: Doc, p: Progress, i: nat): Progress
    requires WellFormed(doc) && i < |Parsers|
  {
    var r := RunStage(Parsers[i].1, doc, p.entries);
    Progress(r.1, Record(p.tables, Parsers[i].0, r.0))
  }

  /** The loop over PARSERS from stage i on. */
  function Stages(doc: Doc, p: Progress, i: nat): Progress
    requires WellFormed(doc) && i <= |Parsers|
    decreases |Parsers| - i
  {
    if i == |Parsers| then p else Stages(doc, Step(doc, p, i), i + 1)
  }

  /** An empty frame, and the record seeded with the document name. */
  function Start(key: string): Tables {
    Tables(map[], map["document" := Str(key + ".pdf")])
  }

  /** What handle_sample returns for the sample `key`, as row and record. */
  function Sample(doc: Doc, key: string): Tables
    requires WellFormed(doc)
  {
    Stages(doc, Progress(map[], Start(key)), 0).tables
  }

  /** f(soup, context) for one entry of PARSERS. */
  method CallStage(stage: Stage, doc: Doc, ctx: Context) returns (o: Outcome<Value>)
    requires WellFormed(doc)
    modifies ctx
    ensures (o, ctx.entries) == RunStage(stage, doc, old(ctx.entries))
  {
    match stage
    case TitleParser =>
      var title := FindTitle(doc, ctx);
      o := AsValue(title, (s: string) => Str(s));
    case DatesParser =>
      var dates := FindDates(doc, ctx);
      o := AsValue(dates, (d: Dict<string>) => Dict(StrDict(d)));
    case AuthorsParser =>
      var authors := FindAuthors(doc, ctx);
      o := AsValue(authors, (ns: seq<string>) => List(StrList(ns)));
  }

  /** handle_sample(path) for a soup already read and preprocessed, from the frame and
      record set up to the end of the stage loop. */
  method HandleSample(doc: Doc, key: string) returns (row: map<string, Value>, record: map<string, Value>)
    requires WellFormed(doc)
    ensures Tables(row, record) == Sample(doc, key)
  {
    var sink := new Sink(map["document" := Str(key + ".pdf")]);
    var ctx := new Context();
    RunParsers(doc, ctx, sink);
    return sink.row, sink.record;
  }

  /** The loop over PARSERS, over one context and one frame and record. */
  method RunParsers(doc: Doc, ctx: Context, sink: Sink)
    requires WellFormed(doc)
    modifies ctx, sink
    ensures Progress(ctx.entries, sink.Contents()) == Stages(doc, old(Progress(ctx.entries, sink.Contents())), 0)
  {
    ghost var start := Progress(ctx.entries, sink.Contents());
    var i := 0;
    while i < |Parsers|
      invariant 0 <= i <= |Parsers|
      invariant Stages(doc, start, 0) == Stages(doc, Progress(ctx.entries, sink.Contents()), i)
    {
      RunParser(doc, i, ctx, sink);
      i := i + 1;
    }
  }

  /** The body of the loop over PARSERS: stage i runs, and a found value is stored; an
      exception from store_recursive is caught like the stage's own. */
  method RunParser(doc: Doc, i: nat, ctx: Context, sink: Sink)
    requires WellFormed(doc) && i < |Parsers|
    modifies ctx, sink
    ensures Progress(ctx.entries, sink.Contents()) == Step(doc, old(Progress(ctx.entries, sink.Contents())), i)
  {
    var (name, stage) := Parsers[i];
    var o := CallStage(stage, doc, ctx);
    if o.Found? {
      var _ := StoreRecursive(sink, name, o.value, false);
    }
  }

  /** The stage loop unrolled: the title stage starts from an empty context, the dates
      stage sees the context the title stage left, and the authors stage the one the
      dates stage left, whatever each of them gave back. */
  lemma SampleSteps(doc: Doc, key: string)
    requires WellFormed(doc)
    ensures var (o1, e1) := RunStage(TitleParser, doc, map[]);
            var (o2, e2) := RunStage(DatesParser, doc, e1);
            var o3 := RunStage(AuthorsParser, doc, e2).0;
            Sample(doc, key) ==
              Record(Record(Record(Start(key), Column("title"), o1), Columns(DateNames), o2), Column("authors"), o3)
  {
    var (o1, e1) := RunStage(TitleParser, doc, map[]);
    var (o2, e2) := RunStage(DatesParser, doc, e1);
    var o3 := RunStage(AuthorsParser, doc, e2).0;
    var p1 := Progress(e1, Record(Start(key), Column("title"), o1));
    var p2 := Progress(e2, Record(p1.tables, Columns(DateNames), o2));
    var p3 := Progress(e2, Record(p2.tables, Column("authors"), o3));
    assert Stages(doc, Progress(map[], Start(key)), 0) == Stages(doc, p1, 1);
    assert Stages(doc, p1, 1) == Stages(doc, p2, 2);
    assert Stages(doc, p2, 2) == Stages(doc, p3, 3);
  }

  /** The record cell a dates dict gives one of the date names: the date, or None when
      the dict has no such key. */
  function DateCell(d: Dict<string>, c: string): Value {
    match DictGet(d, c)
    case None => Null
    case Some(s) => Str(s)
  }

  /** value.get(name, None) on the dict of strings is the string under that key. */
  lemma {:induction false} StrDictGet(d: Dict<string>, c: string)
    ensures Get(Dict(StrDict(d)), c) == DateCell(d, c)
  {
    var r := StrDict(d);
    assert HasKey(r, c) <==> HasKey(d, c) by {
      if HasKey(d, c) { assert r[KeyIndex(d, c)].0 == c; }
      if HasKey(r, c) { assert d[KeyIndex(r, c)].0 == c; }
    }
    if HasKey(d, c) {
      var i, j := KeyIndex(d, c), KeyIndex(r, c);
      assert r[i].0 == c && d[j].0 == c;
      assert i == j;
    }
  }

  /** The dates store: each date name holds value.get(name, None), and no other record
      key changes. */
  lemma DatesRecord(t: Tables, o: Outcome<Value>)
    requires o.Found? ==> o.value.Dict?
    ensures var r := Record(t, Columns(DateNames), o).record;
      && (forall j :: 0 <= j < |DateNames| ==> (DateNames[j] in r <==> o.Found? || DateNames[j] in t.record))
      && (o.Found? ==> forall j :: 0 <= j < |DateNames| ==> r[DateNames[j]] == Get(o.value, DateNames[j]))
      && AgreeOutside(t.record, r, {"received", "accepted", "published"})
  {
    assert NameKeys(Columns(DateNames)) == {"received", "accepted", "published"} by {
      assert DateNames[0] == "received" && DateNames[1] == "accepted" && DateNames[2] == "published";
    }
    if o.Found? {
      StoreRecordOutside(t, Columns(DateNames), o.value);
      StoreRecordNamed(t, DateNames, o.value, 0);
    }
  }

  /** What the three stores leave in the record, for any three stage outcomes of the
      shapes the stages give back. */
  lemma RecordsOf(key: string, o1: Outcome<Value>, o2: Outcome<Value>, o3: Outcome<Value>)
    requires o1.Found? ==> o1.value.Str?
    requires o2.Found? ==> o2.value.Dict?
    requires o3.Found? ==> o3.value.List?
    ensures var r := Record(Record(Record(Start(key), Column("title"), o1), Columns(DateNames), o2), Column("authors"), o3).record;
      && "document" in r && r["document"] == Str(key + ".pdf")
      && ("title" in r <==> o1.Found?) && (o1.Found? ==> r["title"] == o1.value)
      && (forall j :: 0 <= j < |DateNames| ==>
            (DateNames[j] in r <==> o2.Found?) && (o2.Found? ==> r[DateNames[j]] == Get(o2.value, DateNames[j])))
      && ("authors" in r <==> o3.Found?) && (o3.Found? ==> r["authors"] == o3.value)
      && r.Keys <= {"document", "title", "received", "accepted", "published", "authors"}
  {
    var t0 := Start(key);
    var t1 := Record(t0, Column("title"), o1);
    var t2 := Record(t1, Columns(DateNames), o2);
    assert t1.record == if o1.Found? then t0.record["title" := o1.value] else t0.record by {
      if o1.Found? { StoreRecordColumn(t0, "title", o1.value); }
    }
    DatesRecord(t1, o2);
    if o3.Found? { StoreRecordColumn(t2, "authors", o3.value); }
  }

  /** handle_sample's record: the document name; the title when the title stage found
      one; the three dates, each the date parsed for it or None, when the dates stage
      found its line; the author names when the authors stage found them; and nothing
      else.  A stage that is insufficient or raises leaves no key behind. */
  lemma SampleRecord(doc: Doc, key: string)
    requires WellFormed(doc)
    ensures var (title, e1) := TitleOutcome(doc, map[]);
            var (dates, e2) := DatesOutcome(doc, e1, DateKeywords);
            var authors := AuthorsOutcome(doc, e2);
            var r := Sample(doc, key).record;
      && "document" in r && r["document"] == Str(key + ".pdf")
      && ("title" in r <==> title.Found?) && (title.Found? ==> r["title"] == Str(title.value))
      && (forall j :: 0 <= j < |DateNames| ==>
            (DateNames[j] in r <==> dates.Found?) && (dates.Found? ==> r[DateNames[j]] == DateCell(dates.value, DateNames[j])))
      && ("authors" in r <==> authors.Found?) && (authors.Found? ==> r["authors"] == List(StrList(authors.value)))
      && r.Keys <= {"document", "title", "received", "accepted", "published", "authors"}
  {
    var (o1, e1) := RunStage(TitleParser, doc, map[]);
    var (o2, e2) := RunStage(DatesParser, doc, e1);
    var o3 := RunStage(AuthorsParser, doc, e2).0;
    SampleSteps(doc, key);
    RecordsOf(key, o1, o2, o3);
    var dates := DatesOutcome(doc, e1, DateKeywords).0;
    if dates.Found? {
      forall j | 0 <= j < |DateNames| ensures Get(o2.value, DateNames[j]) == DateCell(dates.value, DateNames[j]) {
        StrDictGet(dates.value, DateNames[j]);
      }
    }
  }

  /** The authors stage needs the dates stage: when no dates span is found, "date-start"
      is never set (the title stage writes only "title-size"), so no author is stored. */
  lemma AuthorsNeedDates(doc: Doc, key: string)
    requires WellFormed(doc)
    requires DatesOutcome(doc, TitleOutcome(doc, map[]).1, DateKeywords).0.Insufficient?
    ensures "authors" !in Sample(doc, key).record
  {
    var e1 := TitleOutcome(doc, map[]).1;
    TitleOutcomeSpec(doc, map[]);
    DateKeywordsHaveNoNewline();
    DatesOutcomeSpec(doc, e1, DateKeywords);
    AuthorsNeedDateStart(doc, DatesOutcome(doc, e1, DateKeywords).1);
    SampleRecord(doc, key);
  }
}
