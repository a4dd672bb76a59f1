/** Preprocessing of the parsed page (work.py:44-94): inline CSS declarations become
    attributes of their tag, and every tag is stamped with the page it is on. */
module Styles {
  import opened Base
  import opened Strings
  import opened Tags

  /** The geometry properties whose values carry a "px" unit (work.py:46). */
  const GeometryKeys: set<string> := {"font-size", "top", "left", "width", "height"}

  predicate EndsWith(s: string, suffix: string) {
    |suffix| <= |s| && s[|s| - |suffix|..] == suffix
  }

  /** map_style_val(name, value): a geometry value loses its "px" unit, and any other
      unit raises; other properties keep their value. */
  function MapStyleVal(name: string, value: string): (r: Result<string>)
    ensures name !in GeometryKeys ==> r == Ok(value)
    ensures name in GeometryKeys ==> (r.Ok? <==> EndsWith(value, "px"))
    ensures name in GeometryKeys && r.Ok? ==> r.value + "px" == value
    ensures r.Err? ==> r.fault == UnknownUnit(value)
  {
    if name in GeometryKeys then
      if EndsWith(value, "px") then Ok(value[..|value| - 2]) else Err(UnknownUnit(value))
    else Ok(value)
  }

  /** Writing a geometry value in px and mapping it back gives the number written. */
  lemma MapStyleValRoundTrip(name: string, v: string)
    requires name in GeometryKeys
    ensures MapStyleVal(name, v + "px") == Ok(v)
  {
    assert (v + "px")[..|v|] == v;
  }

  /** The non-empty strings of xs, in order. */
  function NonEmpty(xs: seq<string>): (r: seq<string>)
    ensures forall j :: 0 <= j < |r| ==> r[j] != "" && r[j] in xs
    ensures forall x :: x in xs && x != "" ==> x in r
  {
    if |xs| == 0 then [] else (if xs[0] == "" then [] else [xs[0]]) + NonEmpty(xs[1..])
  }

  /** The filter works piece by piece: filtering a concatenation is concatenating the
      filtered parts, so the kept strings stay in their order and each is kept once. */
  lemma {:induction false} NonEmptyAppend(xs: seq<string>, ys: seq<string>)
    ensures NonEmpty(xs + ys) == NonEmpty(xs) + NonEmpty(ys)
  {
    if |xs| > 0 {
      assert (xs + ys)[1..] == xs[1..] + ys;
      NonEmptyAppend(xs[1..], ys);
    } else {
      assert xs + ys == ys;
    }
  }

  /** Appending one string appends it to the result exactly when it is not empty. */
  lemma {:induction false} NonEmptySnoc(xs: seq<string>, x: string)
    ensures NonEmpty(xs + [x]) == NonEmpty(xs) + (if x == "" then [] else [x])
  {
    NonEmptyAppend(xs, [x]);
    assert [x][1..] == [];
  }

  /** The stripped, non-empty pieces of a style string between ';'. */
  function Declarations(style: string): seq<string> {
    NonEmpty(StripEach(Split(style, ';')))
  }

  /** One `k: v` declaration: `k, v = x.split(":")` raises unless there is exactly one
      colon, then the stripped key maps its stripped value. */
  function ParseDecl(d: string): Result<(string, string)> {
    var parts := Split(d, ':');
    if |parts| != 2 then Err(MalformedDeclaration(d))
    else
      var k := Strip(parts[0]);
      match MapStyleVal(k, Strip(parts[1]))
      case Err(f) => Err(f)
      case Ok(v) => Ok((k, v))
  }

  /** The dict comprehension over the declarations: left to right, a later key overwrites
      an earlier one, the first declaration that raises ends it. */
  function Collect(ds: seq<string>, acc: map<string, string>): Result<map<string, string>> {
    if |ds| == 0 then Ok(acc)
    else match ParseDecl(ds[0])
      case Err(f) => Err(f)
      case Ok(kv) => Collect(ds[1..], acc[kv.0 := kv.1])
  }

  /** style_kv_obj(style) for a string: an empty style gives None. */
  function StyleKvObj(style: string): Result<Option<map<string, string>>> {
    if style == "" then Ok(None)
    else match Collect(Declarations(style), map[])
      case Err(f) => Err(f)
      case Ok(m) => Ok(Some(m))
  }

  /** Every declaration of ds parses. */
  ghost predicate AllParse(ds: seq<string>) {
    forall j :: 0 <= j < |ds| ==> ParseDecl(ds[j]).Ok?
  }

  /** The value the last parsing declaration of ds that sets k gives it, if any: a later
      declaration wins over an earlier one. */
  function LastValue(ds: seq<string>, k: string): Option<string> {
    if |ds| == 0 then None
    else match LastValue(ds[1..], k)
      case Some(v) => Some(v)
      case None =>
        match ParseDecl(ds[0])
        case Ok(kv) => if kv.0 == k then Some(kv.1) else None
        case Err(_) => None
  }

  lemma AllParseTail(ds: seq<string>)
    requires |ds| > 0 && AllParse(ds)
    ensures AllParse(ds[1..])
  {
    forall j | 0 <= j < |ds| - 1 ensures ParseDecl(ds[1..][j]).Ok? { assert ds[1..][j] == ds[j + 1]; }
  }

  /** The comprehension succeeds exactly when every declaration parses. */
  lemma {:induction false} CollectOk(ds: seq<string>, acc: map<string, string>)
    ensures Collect(ds, acc).Ok? <==> AllParse(ds)
  {
    if |ds| > 0 && ParseDecl(ds[0]).Ok? {
      var kv := ParseDecl(ds[0]).value;
      CollectOk(ds[1..], acc[kv.0 := kv.1]);
      assert AllParse(ds) <==> AllParse(ds[1..]) by {
        forall j | 0 < j < |ds| ensures ds[j] == ds[1..][j - 1] {}
      }
    }
  }

  /** When the comprehension fails, it fails with the exception of the first declaration
      that does not parse. */
  lemma {:induction false} CollectFirstError(ds: seq<string>, acc: map<string, string>)
    requires Collect(ds, acc).Err?
    ensures exists j :: 0 <= j < |ds| && ParseDecl(ds[j]) == Err(Collect(ds, acc).fault)
                      && forall j' :: 0 <= j' < j ==> ParseDecl(ds[j']).Ok?
  {
    if ParseDecl(ds[0]).Err? {
      assert ParseDecl(ds[0]) == Err(Collect(ds, acc).fault);
    } else {
      var kv := ParseDecl(ds[0]).value;
      var rest := ds[1..];
      assert Collect(ds, acc) == Collect(rest, acc[kv.0 := kv.1]);
      CollectFirstError(rest, acc[kv.0 := kv.1]);
      var j :| 0 <= j < |rest| && ParseDecl(rest[j]) == Err(Collect(rest, acc[kv.0 := kv.1]).fault)
               && forall j' :: 0 <= j' < j ==> ParseDecl(rest[j']).Ok?;
      assert ds[j + 1] == rest[j];
      forall j' | 0 < j' < j + 1 ensures ParseDecl(ds[j']).Ok? {
        assert ds[j'] == rest[j' - 1];
      }
    }
  }

  /** When the comprehension succeeds, a key is present when it was already there or a
      declaration sets it, and it holds the value of the last declaration setting it. */
  lemma {:induction false} CollectValues(ds: seq<string>, acc: map<string, string>)
    requires Collect(ds, acc).Ok?
    ensures var m := Collect(ds, acc).value;
      forall k :: (k in m <==> k in acc || LastValue(ds, k).Some?)
               && (k in m ==> m[k] == if LastValue(ds, k).Some? then LastValue(ds, k).value else acc[k])
  {
    if |ds| > 0 {
      var kv := ParseDecl(ds[0]).value;
      var rest, acc' := ds[1..], acc[kv.0 := kv.1];
      assert Collect(ds, acc) == Collect(rest, acc');
      CollectValues(rest, acc');
      var m := Collect(rest, acc').value;
      forall k
        ensures (k in m <==> k in acc || LastValue(ds, k).Some?)
        ensures k in m ==> m[k] == if LastValue(ds, k).Some? then LastValue(ds, k).value else acc[k]
      {
        if LastValue(rest, k).None? {
          assert LastValue(ds, k) == if kv.0 == k then Some(kv.1) else None;
        }
      }
    }
  }

  /** LastValue names the last declaration setting the key: declaration j sets k, and none
      after it does. */
  lemma {:induction false} LastValueIsLast(ds: seq<string>, k: string)
    requires AllParse(ds) && LastValue(ds, k).Some?
    ensures exists j :: 0 <= j < |ds| && ParseDecl(ds[j]).value == (k, LastValue(ds, k).value)
                      && forall j' :: j < j' < |ds| ==> ParseDecl(ds[j']).value.0 != k
  {
    var rest := ds[1..];
    AllParseTail(ds);
    if LastValue(rest, k).Some? {
      LastValueIsLast(rest, k);
      var j :| 0 <= j < |rest| && ParseDecl(rest[j]).value == (k, LastValue(rest, k).value)
               && forall j' :: j < j' < |rest| ==> ParseDecl(rest[j']).value.0 != k;
      NotSetAfter(ds, k, j);
      assert ds[j + 1] == rest[j];
    } else {
      LastValueNone(rest, k);
      NotSetAfter(ds, k, -1);
    }
  }

  /** "No declaration after j sets k", moved from the tail of ds to ds. */
  lemma NotSetAfter(ds: seq<string>, k: string, j: int)
    requires |ds| > 0 && AllParse(ds) && AllParse(ds[1..]) && -1 <= j < |ds| - 1
    requires forall j' :: j < j' < |ds| - 1 ==> ParseDecl(ds[1..][j']).value.0 != k
    ensures forall j' :: j + 1 < j' < |ds| ==> ParseDecl(ds[j']).value.0 != k
  {
    forall j' | j + 1 < j' < |ds| ensures ParseDecl(ds[j']).value.0 != k {
      assert ds[j'] == ds[1..][j' - 1];
    }
  }

  /** No value means no parsing declaration sets the key. */
  lemma {:induction false} LastValueNone(ds: seq<string>, k: string)
    requires AllParse(ds) && LastValue(ds, k).None?
    ensures forall j :: 0 <= j < |ds| ==> ParseDecl(ds[j]).value.0 != k
  {
    if |ds| > 0 {
      var rest := ds[1..];
      AllParseTail(ds);
      LastValueNone(rest, k);
      NotSetAfter(ds, k, -1);
    }
  }

  /** A non-empty style without ';' and without whitespace at its ends is one declaration. */
  lemma OneDeclaration(d: string)
    requires d != "" && ';' !in d && Strip(d) == d
    ensures Declarations(d) == [d]
  {
    SplitAbsent(d, ';');
    var pieces := StripEach(Split(d, ';'));
    assert pieces == [d];
    assert NonEmpty(pieces) == [d] + NonEmpty([]);
  }

  /** `k:v` with no other colon splits into its key and its value. */
  lemma SplitPair(k: string, v: string)
    requires ':' !in k && ':' !in v
    ensures Split(k + ":" + v, ':') == [k, v]
  {
    var d := k + ":" + v;
    assert d[..|k|] == k && d[|k|] == ':' && d[|k| + 1..] == v;
    SplitAtFirst(d, ':');
    IndexOfFirst(d, ':', |k|);
    SplitAbsent(v, ':');
    var sp := Split(d, ':');
    assert sp[0] == k && sp[1..] == [v];
    assert sp == [sp[0]] + sp[1..];
  }

  /** A stripped `k:v` with no other colon parses to the key and its mapped value. */
  lemma ParsePair(k: string, v: string)
    requires ':' !in k && ':' !in v && Strip(k) == k && Strip(v) == v
    ensures ParseDecl(k + ":" + v) == match MapStyleVal(k, v)
                                      case Ok(w) => Ok((k, w))
                                      case Err(f) => Err(f)
  {
    SplitPair(k, v);
  }

  /** A style made of one declaration `k:v` (key and value without ':' or ';' and
      already stripped) gives the one-entry dict of the key and its mapped value, or the
      exception map_style_val raises. */
  lemma SingleDeclaration(k: string, v: string)
    requires k != "" && ':' !in k && ';' !in k && ':' !in v && ';' !in v
    requires Strip(k) == k && Strip(v) == v
    ensures var d := k + ":" + v;
      StyleKvObj(d) == match MapStyleVal(k, v)
                       case Ok(w) => Ok(Some(map[k := w]))
                       case Err(f) => Err(f)
  {
    var d := k + ":" + v;
    PairStripped(k, v);
    OneDeclaration(d);
    ParsePair(k, v);
    CollectOne(d);
  }

  lemma PairStripped(k: string, v: string)
    requires k != "" && ';' !in k && ';' !in v && Strip(k) == k && Strip(v) == v
    ensures var d := k + ":" + v; d != "" && ';' !in d && Strip(d) == d
  {
    var d := k + ":" + v;
    assert !IsWhitespace(d[0]) && !IsWhitespace(d[|d| - 1]) by {
      assert d[0] == k[0];
      if |v| > 0 { assert d[|d| - 1] == v[|v| - 1]; }
    }
    StripStable(d);
  }

  /** The comprehension over one declaration. */
  lemma CollectOne(d: string)
    ensures Collect([d], map[]) == match ParseDecl(d)
                                  case Ok(kv) => Ok(map[kv.0 := kv.1])
                                  case Err(f) => Err(f)
  {
    assert [d][1..] == [];
  }

  /** A tag with its inline style moved into its attributes (work.py:78-84): only a
      non-empty style is parsed; its declarations overwrite same-named attributes and the
      style attribute itself is removed. */
  function InlineStyle(n: Node): Result<Node> {
    if "style" in n.attrs && n.attrs["style"] != "" then
      match StyleKvObj(n.attrs["style"])
      case Err(f) => Err(f)
      case Ok(o) => Ok(n.(attrs := (n.attrs + (if o.Some? then o.value else map[])) - {"style"}))
    else Ok(n)
  }

  /** An anchor whose text starts with "Page" and that has a name marks the start of the
      page with that name (work.py:85-89). */
  predicate IsPageMarker(n: Node) {
    n.name == "a" && "name" in n.attrs && StartsWith(Strip(n.text), "Page")
  }

  /** One iteration of preprocess_soup's loop: the processed tag and the page index after it. */
  function Step(n: Node, page: string): Result<(Node, string)> {
    match InlineStyle(n)
    case Err(f) => Err(f)
    case Ok(t) =>
      var page' := if IsPageMarker(t) then t.attrs["name"] else page;
      Ok((if t.name != "br" then t.(attrs := t.attrs["page" := page']) else t, page'))
  }

  /** The loop over all tags from page index `page`: the tags after processing, in place,
      and the exception that stopped it, if any (the tags from the failing one on are
      left as they were). */
  function Run(ns: seq<Node>, page: string): (r: (seq<Node>, Option<Fault>))
    ensures |r.0| == |ns|
  {
    if |ns| == 0 then ([], None)
    else match Step(ns[0], page)
      case Err(f) => (ns, Some(f))
      case Ok(s) => var rest := Run(ns[1..], s.1); ([s.0] + rest.0, rest.1)
  }

  /** A run whose first step raises nothing is that step's tag followed by the run of
      the rest, from the page index after it. */
  lemma RunCons(ns: seq<Node>, page: string)
    requires |ns| > 0 && Step(ns[0], page).Ok?
    ensures var s := Step(ns[0], page).value;
      Run(ns, page) == ([s.0] + Run(ns[1..], s.1).0, Run(ns[1..], s.1).1)
  {
  }

  /** out keeps the names, parents and texts of ns. */
  ghost predicate SameShape(out: seq<Node>, ns: seq<Node>) {
    |out| == |ns| && forall j :: 0 <= j < |ns| ==>
      out[j].name == ns[j].name && out[j].parent == ns[j].parent && out[j].text == ns[j].text
  }

  lemma ShapeCons(o: Node, rest: seq<Node>, ns: seq<Node>)
    requires |ns| > 0 && o.name == ns[0].name && o.parent == ns[0].parent && o.text == ns[0].text
    requires SameShape(rest, ns[1..])
    ensures SameShape([o] + rest, ns)
  {
    forall j | 1 <= j < |ns|
      ensures ([o] + rest)[j] == rest[j - 1] && ns[j] == ns[1..][j - 1]
    {}
  }

  /** Processing changes attributes only: names, parents and texts stay, so a
      well-formed page stays well-formed. */
  lemma {:induction false} RunKeepsShape(ns: seq<Node>, page: string)
    ensures SameShape(Run(ns, page).0, ns)
  {
    if |ns| > 0 && Step(ns[0], page).Ok? {
      var s := Step(ns[0], page).value;
      RunCons(ns, page);
      RunKeepsShape(ns[1..], s.1);
      ShapeCons(s.0, Run(ns[1..], s.1).0, ns);
    }
  }

  /** No tag of out keeps a non-empty style, and every tag but a <br> has a page. */
  ghost predicate Cleared(out: seq<Node>) {
    forall j :: 0 <= j < |out| ==>
      ("style" in out[j].attrs ==> out[j].attrs["style"] == "") && (out[j].name != "br" ==> "page" in out[j].attrs)
  }

  lemma ClearedCons(o: Node, rest: seq<Node>)
    requires ("style" in o.attrs ==> o.attrs["style"] == "") && (o.name != "br" ==> "page" in o.attrs)
    requires Cleared(rest)
    ensures Cleared([o] + rest)
  {
    forall j | 1 <= j < |rest| + 1 ensures ([o] + rest)[j] == rest[j - 1] {}
  }

  /** After a run that raised nothing, no tag keeps a non-empty style, and every tag but a
      <br> carries the page attribute. */
  lemma {:induction false} RunClearsStyles(ns: seq<Node>, page: string)
    requires Run(ns, page).1.None?
    ensures Cleared(Run(ns, page).0)
  {
    if |ns| > 0 {
      var s := Step(ns[0], page).value;
      RunCons(ns, page);
      RunClearsStyles(ns[1..], s.1);
      ClearedCons(s.0, Run(ns[1..], s.1).0);
    }
  }

  /** The value the inline style of attributes a gives key k, if any: a non-empty style
      is parsed, and the last declaration setting k wins. */
  function StyleValue(a: map<string, string>, k: string): Option<string> {
    if "style" in a && a["style"] != "" then LastValue(Declarations(a["style"]), k) else None
  }

  /** o is n with its inline style moved into its attributes: every key but "style" (and
      but "page", which a tag other than <br> gets stamped) holds its declared value if
      the style declares it and its old value otherwise; a non-empty style is removed. */
  ghost predicate Inlines(o: Node, n: Node) {
    && ("style" in o.attrs <==> "style" in n.attrs && n.attrs["style"] == "")
    && forall k :: k != "style" && (k != "page" || n.name == "br") ==>
         && (k in o.attrs <==> k in n.attrs || StyleValue(n.attrs, k).Some?)
         && (k in o.attrs ==> o.attrs[k] == if StyleValue(n.attrs, k).Some? then StyleValue(n.attrs, k).value
                                             else n.attrs[k])
  }

  /** Each out[j] is ns[j] with its style inlined. */
  ghost predicate InlinedAll(out: seq<Node>, ns: seq<Node>) {
    |out| == |ns| && forall j :: 0 <= j < |ns| ==> Inlines(out[j], ns[j])
  }

  /** One step that raises nothing inlines the tag's style. */
  lemma StepInlines(n: Node, page: string)
    requires Step(n, page).Ok?
    ensures Inlines(Step(n, page).value.0, n)
  {
    var a := n.attrs;
    if "style" in a && a["style"] != "" {
      var ds := Declarations(a["style"]);
      assert StyleKvObj(a["style"]).Ok?;
      CollectValues(ds, map[]);
    }
  }

  lemma InlinedCons(o: Node, n: Node, rest: seq<Node>, ns: seq<Node>)
    requires |ns| > 0 && ns[0] == n && Inlines(o, n) && InlinedAll(rest, ns[1..])
    ensures InlinedAll([o] + rest, ns)
  {
    forall j | 1 <= j < |ns| ensures ([o] + rest)[j] == rest[j - 1] && ns[j] == ns[1..][j - 1] {}
  }

  /** After a run that raised nothing, every tag has its inline style moved into its
      attributes, and its other attributes keep their values. */
  lemma {:induction false} RunInlines(ns: seq<Node>, page: string)
    requires Run(ns, page).1.None?
    ensures InlinedAll(Run(ns, page).0, ns)
  {
    if |ns| > 0 {
      var s := Step(ns[0], page).value;
      RunCons(ns, page);
      StepInlines(ns[0], page);
      RunInlines(ns[1..], s.1);
      InlinedCons(s.0, ns[0], Run(ns[1..], s.1).0, ns);
    }
  }

  /** v is the name of the last page marker among out[..j + 1], or p when there is none. */
  ghost predicate LatestPage(out: seq<Node>, j: nat, p: string, v: string)
    requires j < |out|
  {
    (exists k :: 0 <= k <= j && IsPageMarker(out[k]) && out[k].attrs["name"] == v
                && forall k' :: k < k' <= j ==> !IsPageMarker(out[k']))
    || ((forall k :: 0 <= k <= j ==> !IsPageMarker(out[k])) && v == p)
  }

  /** Every tag of out but a <br> carries a page stamp, the name of the latest page marker
      at or before it, or p when there is none yet. */
  ghost predicate Stamped(out: seq<Node>, p: string) {
    forall j :: 0 <= j < |out| && out[j].name != "br" ==>
      "page" in out[j].attrs && LatestPage(out, j, p, out[j].attrs["page"])
  }

  /** One step moves the page index on at a marker and stamps the tag with the new index. */
  lemma StepStamps(n: Node, page: string)
    requires Step(n, page).Ok?
    ensures var (o, page') := Step(n, page).value;
      && page' == (if IsPageMarker(o) then o.attrs["name"] else page)
      && (o.name != "br" ==> "page" in o.attrs && o.attrs["page"] == page')
  {
  }

  /** A stamped run stays stamped with a tag in front of it that carries its own stamp. */
  lemma StampedCons(o: Node, rest: seq<Node>, page: string, page': string)
    requires page' == (if IsPageMarker(o) then o.attrs["name"] else page)
    requires o.name != "br" ==> "page" in o.attrs && o.attrs["page"] == page'
    requires Stamped(rest, page')
    ensures Stamped([o] + rest, page)
  {
    var out := [o] + rest;
    assert out[1..] == rest;
    forall j | 0 <= j < |out| && out[j].name != "br"
      ensures "page" in out[j].attrs && LatestPage(out, j, page, out[j].attrs["page"])
    {
      if j == 0 {
        if IsPageMarker(o) {
          assert LatestPage(out, 0, page, page');
        }
      } else {
        assert out[j] == rest[j - 1];
        LatestPageShift(out, rest, j, page, page', rest[j - 1].attrs["page"]);
      }
    }
  }

  /** A run that raised nothing stamps every tag with its page. */
  lemma {:induction false} RunStampsPages(ns: seq<Node>, page: string)
    requires Run(ns, page).1.None?
    ensures Stamped(Run(ns, page).0, page)
  {
    if |ns| > 0 {
      var s := Step(ns[0], page).value;
      RunCons(ns, page);
      StepStamps(ns[0], page);
      RunStampsPages(ns[1..], s.1);
      StampedCons(s.0, Run(ns[1..], s.1).0, page, s.1);
    }
  }

  /** Extending a run by a tag at the front: the latest marker in the rest is the latest
      overall, and when the rest has none, the front tag decides. */
  lemma LatestPageShift(out: seq<Node>, rest: seq<Node>, j: nat, page: string, page': string, v: string)
    requires |out| == |rest| + 1 && out[1..] == rest && 0 < j < |out|
    requires page' == if IsPageMarker(out[0]) then out[0].attrs["name"] else page
    requires LatestPage(rest, j - 1, page', v)
    ensures LatestPage(out, j, page, v)
  {
    if k :| 0 <= k <= j - 1 && IsPageMarker(rest[k]) && rest[k].attrs["name"] == v
            && forall k' :: k < k' <= j - 1 ==> !IsPageMarker(rest[k']) {
      assert out[k + 1] == rest[k];
      forall k' | k + 1 < k' <= j ensures !IsPageMarker(out[k']) {
        assert out[k'] == rest[k' - 1];
      }
    } else {
      assert forall k :: 1 <= k <= j ==> out[k] == rest[k - 1];
      if IsPageMarker(out[0]) {
        assert forall k' :: 0 < k' <= j ==> !IsPageMarker(out[k']);
      }
    }
  }

  /** One tag further into a run: when processing the first tag of the rest raises
      nothing, it joins the processed prefix and the run goes on from the page index
      after it. */
  lemma RunAdvance(rest: seq<Node>, page: string, done: seq<Node>, total: seq<Node>)
    requires |rest| > 0 && Step(rest[0], page).Ok?
    requires total == done + Run(rest, page).0
    ensures var s := Step(rest[0], page).value;
      total == (done + [s.0]) + Run(rest[1..], s.1).0 && Run(rest, page).1 == Run(rest[1..], s.1).1
  {
    var s := Step(rest[0], page).value;
    assert Run(rest, page).0 == [s.0] + Run(rest[1..], s.1).0;
  }

  /** The body of preprocess_soup's loop for one tag (work.py:78-92): inline its style,
      move the page index on at a page marker, and stamp the page unless it is a <br>. */
  method ProcessTag(tag: Node, pageIndex: string) returns (r: Result<(Node, string)>)
    ensures r == Step(tag, pageIndex)
  {
    var t := tag;
    if "style" in t.attrs && t.attrs["style"] != "" {
      var style := StyleKvObj(t.attrs["style"]);
      if style.Err? {
        return Err(style.fault);
      }
      var attrs := t.attrs;
      if style.value.Some? {
        attrs := attrs + style.value.value;
      }
      t := t.(attrs := attrs - {"style"});
    }
    var page := pageIndex;
    if t.name == "a" {
      var isPage := StartsWith(Strip(t.text), "Page");
      if isPage && "name" in t.attrs {
        page := t.attrs["name"];
      }
    }
    if t.name != "br" {
      t := t.(attrs := t.attrs["page" := page]);
    }
    return Ok((t, page));
  }

  /** A run stops at the first tag whose processing raises, leaving that tag and the ones
      after it as they were. */
  lemma RunStops(ns: seq<Node>, i: nat, page: string)
    requires i < |ns| && Step(ns[i], page).Err?
    ensures Run(ns[i..], page) == (ns[i..], Some(Step(ns[i], page).fault))
    ensures ns[..i] + Run(ns[i..], page).0 == ns
  {
    PrefixSuffix(ns, i);
  }

  /** preprocess_soup (work.py:73-94), over the tags in document order: each tag is
      processed in place; an exception from style_kv_obj stops the loop and is returned. */
  method PreprocessSoup(nodes: array<Node>) returns (fault: Option<Fault>)
    modifies nodes
    ensures (nodes[..], fault) == Run(old(nodes[..]), "0")
  {
    ghost var orig := nodes[..];
    ghost var total := Run(orig, "0");
    var pageIndex := "0";
    var i := 0;
    assert orig[i..] == orig;
    while i < nodes.Length
      invariant 0 <= i <= nodes.Length
      invariant nodes[i..] == orig[i..]
      invariant total.0 == nodes[..i] + Run(orig[i..], pageIndex).0
      invariant total.1 == Run(orig[i..], pageIndex).1
    {
      ghost var rest := orig[i..];
      assert rest[0] == nodes[i];
      var step := ProcessTag(nodes[i], pageIndex);
      if step.Err? {
        RunStops(nodes[..], i, pageIndex);
        return Some(step.fault);
      }
      RunAdvance(rest, pageIndex, nodes[..i], total.0);
      assert rest[1..] == orig[i + 1..];
      ghost var done := nodes[..i];
      nodes[i] := step.value.0;
      pageIndex := step.value.1;
      assert nodes[..i + 1] == done + [step.value.0];
      i := i + 1;
    }
    assert orig[i..] == [];
    assert nodes[..i] + Run(orig[i..], pageIndex).0 == nodes[..];
    fault := None;
  }
}
