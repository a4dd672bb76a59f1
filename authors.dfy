/** The authors stage (work.py:294-334): the spans on page 1 above the dates block,
    with a font larger than the dates and smaller than the title, whose text reads as a
    name, are the authors, in document order. */
module AuthorStage {
  import opened Base
  import opened Strings
  import opened Tags
  import opened UnicodeClasses
  import opened NamePattern
  import opened SharedContext

  /** is_namelike(tag, context) (work.py:294-313).  The checks run in the source's order,
      and each comparison with a context value reads it only when it is reached: a
      missing key raises KeyError and a None value raises TypeError.  A tag above or at
      date-start passes (only `top > date-start` rejects). */
  function IsNamelike(doc: Doc, i: nat, ctx: map<string, Option<int>>): Result<bool>
    requires WellFormed(doc) && i < |doc|
  {
    var n := doc[i];
    if n.name != "span" || !OnFirstPage(n) then Ok(false)
    else match IntValue(doc, i, "top")
      case Err(f) => Err(f)
      case Ok(None) => Ok(false)
      case Ok(Some(top)) =>
        match Lookup(ctx, "date-start")
        case Err(f) => Err(f)
        case Ok(dateStart) =>
          if top > dateStart then Ok(false)
          else match IntValue(doc, i, "font-size")
            case Err(f) => Err(f)
            case Ok(None) => Ok(false)
            case Ok(Some(size)) =>
              match Lookup(ctx, "date-size")
              case Err(f) => Err(f)
              case Ok(dateSize) =>
                if size <= dateSize then Ok(false)
                else match Lookup(ctx, "title-size")
                  case Err(f) => Err(f)
                  case Ok(titleSize) =>
                    if size >= titleSize then Ok(false)
                    else
                      var content := Strip(n.text);
                      if content == "" then Ok(false) else Ok(AuthorName(content))
  }

  /** is_namelike's verdict on every tag, in document order. */
  function Verdicts(doc: Doc, ctx: map<string, Option<int>>): (v: seq<Result<bool>>)
    requires WellFormed(doc)
    ensures |v| == |doc| && forall j :: 0 <= j < |doc| ==> v[j] == IsNamelike(doc, j, ctx)
  {
    seq(|doc|, j requires 0 <= j < |doc| => IsNamelike(doc, j, ctx))
  }

  /** soup.find_all(f) from tag k on, given f's verdict on each tag: the indices of the
      tags it accepts in document order, or the first exception it raises. */
  function Accepted(verdicts: seq<Result<bool>>, k: nat): (r: Result<seq<nat>>)
    requires k <= |verdicts|
    ensures r.Ok? ==> forall j :: 0 <= j < |r.value| ==> k <= r.value[j] < |verdicts|
    decreases |verdicts| - k
  {
    if k == |verdicts| then Ok([])
    else match verdicts[k]
      case Err(f) => Err(f)
      case Ok(b) =>
        match Accepted(verdicts, k + 1)
        case Err(f) => Err(f)
        case Ok(rest) => Ok(if b then [k] + rest else rest)
  }

  /** soup.find_all(lambda t: is_namelike(t, context)). */
  function Namelike(doc: Doc, ctx: map<string, Option<int>>): (r: Result<seq<nat>>)
    requires WellFormed(doc)
    ensures r.Ok? ==> forall j :: 0 <= j < |r.value| ==> r.value[j] < |doc|
  {
    Accepted(Verdicts(doc, ctx), 0)
  }

  /** The name the loop of find_authors appends for tag t: its stripped text without the
      leading separator and spaces, or nothing for a text that is exactly "Æ". */
  function CleanedName(doc: Doc, t: nat): seq<string>
    requires t < |doc|
  {
    var text := Strip(doc[t].text);
    if text == "Æ" then [] else [SkipPrefix(text)]
  }

  /** What the loop of find_authors appends for each of the tags ix. */
  function NamesOf(doc: Doc, ix: seq<nat>): (r: seq<seq<string>>)
    requires forall j :: 0 <= j < |ix| ==> ix[j] < |doc|
    ensures |r| == |ix| && forall j :: 0 <= j < |ix| ==> r[j] == CleanedName(doc, ix[j])
  {
    seq(|ix|, j requires 0 <= j < |ix| => CleanedName(doc, ix[j]))
  }

  /** The names the loop of find_authors appends for the tags ix, in order. */
  function Cleaned(doc: Doc, ix: seq<nat>): seq<string>
    requires forall j :: 0 <= j < |ix| ==> ix[j] < |doc|
  {
    Concat(NamesOf(doc, ix))
  }

  /** find_authors: the names, or InsufficientParser when there are none, or the
      exception is_namelike raised. */
  function AuthorsOutcome(doc: Doc, ctx: map<string, Option<int>>): Outcome<seq<string>>
    requires WellFormed(doc)
  {
    match Namelike(doc, ctx)
    case Err(f) => Raised(f)
    case Ok(ix) =>
      var names := Cleaned(doc, ix);
      if |names| > 0 then Found(names) else Insufficient("Author not found")
  }

  /** The tags found so far, put in front of what the rest of the scan gives. */
  function Extend(found: seq<nat>, r: Result<seq<nat>>): Result<seq<nat>> {
    match r
    case Err(f) => Err(f)
    case Ok(rest) => Ok(found + rest)
  }

  /** One step of the scan: a tag that does not raise moves onto the found list when it
      is accepted. */
  lemma AcceptedStep(verdicts: seq<Result<bool>>, i: nat, found: seq<nat>)
    requires i < |verdicts| && verdicts[i].Ok?
    ensures Extend(found, Accepted(verdicts, i))
         == Extend(found + (if verdicts[i].value then [i] else []), Accepted(verdicts, i + 1))
  {
    if Accepted(verdicts, i + 1).Ok? && verdicts[i].value {
      var rest := Accepted(verdicts, i + 1).value;
      assert Accepted(verdicts, i) == Ok([i] + rest);
      assert found + ([i] + rest) == found + [i] + rest;
    } else {
      assert found + [] == found;
    }
  }

  /** find_all, as a loop collecting the matching tags. */
  method FindAll(doc: Doc, ctx: map<string, Option<int>>) returns (r: Result<seq<nat>>)
    requires WellFormed(doc)
    ensures r == Namelike(doc, ctx)
  {
    ghost var verdicts := Verdicts(doc, ctx);
    var found: seq<nat> := [];
    var i: nat := 0;
    if Accepted(verdicts, 0).Ok? {
      assert [] + Accepted(verdicts, 0).value == Accepted(verdicts, 0).value;
    }
    while i < |doc|
      invariant i <= |doc|
      invariant Accepted(verdicts, 0) == Extend(found, Accepted(verdicts, i))
    {
      var b := IsNamelike(doc, i, ctx);
      assert b == verdicts[i];
      if b.Err? {
        return Err(b.fault);
      }
      AcceptedStep(verdicts, i, found);
      var add: seq<nat> := if b.value then [i] else [];
      found := found + add;
      i := i + 1;
    }
    assert found + [] == found;
    return Ok(found);
  }

  /** find_authors(soup, context) (work.py:316-334). */
  method FindAuthors(doc: Doc, ctx: Context) returns (o: Outcome<seq<string>>)
    requires WellFormed(doc)
    ensures o == AuthorsOutcome(doc, ctx.entries)
  {
    var tags := FindAll(doc, ctx.entries);
    if tags.Err? {
      return Raised(tags.fault);
    }
    var result := CleanNames(doc, tags.value);
    if |result| > 0 {
      return Found(result);
    }
    return Insufficient("Author not found");
  }

  /** The loop of find_authors over the tags find_all returned. */
  method CleanNames(doc: Doc, ix: seq<nat>) returns (result: seq<string>)
    requires forall j :: 0 <= j < |ix| ==> ix[j] < |doc|
    ensures result == Cleaned(doc, ix)
  {
    ghost var names := NamesOf(doc, ix);
    result := [];
    var i := 0;
    while i < |ix|
      invariant 0 <= i <= |ix|
      invariant result == Concat(names[..i])
    {
      ConcatSnoc(names, i);
      var text := Strip(doc[ix[i]].text);
      if text != "Æ" {
        result := result + [SkipPrefix(text)];
      } else {
        assert result + [] == result;
      }
      i := i + 1;
    }
    assert names[..i] == names;
  }

  /** The tags find_all returns are the accepted ones, in strictly increasing document
      order, and every tag it leaves out was rejected. */
  lemma {:induction false} AcceptedSpec(verdicts: seq<Result<bool>>, k: nat)
    requires k <= |verdicts| && Accepted(verdicts, k).Ok?
    ensures var ix := Accepted(verdicts, k).value;
      && (forall j :: 0 <= j < |ix| ==> verdicts[ix[j]] == Ok(true))
      && (forall j, j' :: 0 <= j < j' < |ix| ==> ix[j] < ix[j'])
      && (forall t :: k <= t < |verdicts| && t !in ix ==> verdicts[t] == Ok(false))
    decreases |verdicts| - k
  {
    if k < |verdicts| {
      AcceptedSpec(verdicts, k + 1);
    }
  }

  /** verdicts[j] is the first exception from tag k on. */
  ghost predicate FirstErrorAt(verdicts: seq<Result<bool>>, k: nat, j: nat) {
    k <= j < |verdicts| && verdicts[j].Err? && forall t :: k <= t < j ==> verdicts[t].Ok?
  }

  /** find_all raises exactly when some tag raises, and then it raises the first one's
      exception. */
  lemma {:induction false} AcceptedError(verdicts: seq<Result<bool>>, k: nat)
    requires k <= |verdicts|
    ensures Accepted(verdicts, k).Err? <==> exists j :: k <= j < |verdicts| && verdicts[j].Err?
    ensures Accepted(verdicts, k).Err? ==>
      exists j: nat :: FirstErrorAt(verdicts, k, j) && verdicts[j].fault == Accepted(verdicts, k).fault
    decreases |verdicts| - k
  {
    if k < |verdicts| {
      AcceptedError(verdicts, k + 1);
      if verdicts[k].Err? {
        assert FirstErrorAt(verdicts, k, k);
      } else if Accepted(verdicts, k).Err? {
        var j: nat :| FirstErrorAt(verdicts, k + 1, j) && verdicts[j].fault == Accepted(verdicts, k + 1).fault;
        assert FirstErrorAt(verdicts, k, j);
      }
    }
  }

  /** What makes a tag name-like, once the context holds all three sizes: a span on page
      1, with inherited top at most date-start, inherited font size strictly between
      date-size and title-size, and a text that starts with a name. */
  lemma IsNamelikeSpec(doc: Doc, i: nat, ctx: map<string, Option<int>>, dateStart: int, dateSize: int, titleSize: int)
    requires WellFormed(doc) && i < |doc|
    requires Lookup(ctx, "date-start") == Ok(dateStart) && Lookup(ctx, "date-size") == Ok(dateSize)
    requires Lookup(ctx, "title-size") == Ok(titleSize)
    requires IntValue(doc, i, "top").Ok? && IntValue(doc, i, "font-size").Ok?
    ensures IsNamelike(doc, i, ctx) == Ok(
      && doc[i].name == "span" && OnFirstPage(doc[i])
      && IntValue(doc, i, "top").value.Some? && IntValue(doc, i, "top").value.value <= dateStart
      && IntValue(doc, i, "font-size").value.Some?
      && dateSize < IntValue(doc, i, "font-size").value.value < titleSize
      && AuthorName(Strip(doc[i].text)))
  {
    if Strip(doc[i].text) == "" {
      ShortNeverMatches("", IsNameComponent, IsSpaceSeparator);
      MatchesSpec("", IsNameComponent, IsSpaceSeparator);
    }
  }

  /** An int lookup that raises raises ValueError from int(). */
  lemma {:induction false} InheritedFault(doc: Doc, i: nat, attr: string)
    requires WellFormed(doc) && i < |doc|
    ensures IntValue(doc, i, attr).Err? ==> IntValue(doc, i, attr).fault.NotAnInteger?
    decreases i
  {
    if OwnValue(doc[i], attr, IntCast) == Ok(None) && doc[i].parent.Some? {
      InheritedFault(doc, doc[i].parent.value, attr);
    }
  }

  /** Without date-start in the context no tag is name-like: a tag that gets as far as
      comparing its top raises KeyError, and the only other exception is int()'s. */
  lemma NoDateStartTag(doc: Doc, i: nat, ctx: map<string, Option<int>>)
    requires WellFormed(doc) && i < |doc| && "date-start" !in ctx
    ensures IsNamelike(doc, i, ctx) != Ok(true)
    ensures IsNamelike(doc, i, ctx).Err? ==>
      IsNamelike(doc, i, ctx).fault == MissingKey("date-start") || IsNamelike(doc, i, ctx).fault.NotAnInteger?
  {
    InheritedFault(doc, i, "top");
  }

  /** So without date-start (the dates stage found nothing, or raised before writing it)
      the stage never finds an author. */
  lemma AuthorsNeedDateStart(doc: Doc, ctx: map<string, Option<int>>)
    requires WellFormed(doc) && "date-start" !in ctx
    ensures !AuthorsOutcome(doc, ctx).Found?
    ensures AuthorsOutcome(doc, ctx).Raised? ==>
      AuthorsOutcome(doc, ctx).fault == MissingKey("date-start") || AuthorsOutcome(doc, ctx).fault.NotAnInteger?
  {
    var verdicts := Verdicts(doc, ctx);
    forall j | 0 <= j < |doc| ensures verdicts[j] != Ok(true) && (verdicts[j].Err? ==>
      verdicts[j].fault == MissingKey("date-start") || verdicts[j].fault.NotAnInteger?)
    {
      NoDateStartTag(doc, j, ctx);
    }
    AcceptedError(verdicts, 0);
    if Accepted(verdicts, 0).Ok? {
      var ix := Accepted(verdicts, 0).value;
      AcceptedSpec(verdicts, 0);
    }
  }

  /** A name-like tag's text matches the name pattern, so it is at least three
      characters long and never the "Æ" the loop skips. */
  lemma NamelikeIsName(doc: Doc, i: nat, ctx: map<string, Option<int>>)
    requires WellFormed(doc) && i < |doc| && IsNamelike(doc, i, ctx) == Ok(true)
    ensures AuthorName(Strip(doc[i].text)) && |Strip(doc[i].text)| >= 3
  {
    var text := Strip(doc[i].text);
    MatchesSpec(text, IsNameComponent, IsSpaceSeparator);
    if |text| < 3 {
      ShortNeverMatches(text, IsNameComponent, IsSpaceSeparator);
    }
  }

  /** With no "Æ" among them, every tag contributes its cleaned text. */
  lemma CleanedKeepsAll(doc: Doc, ix: seq<nat>)
    requires forall j :: 0 <= j < |ix| ==> ix[j] < |doc| && Strip(doc[ix[j]].text) != "Æ"
    ensures Cleaned(doc, ix) == seq(|ix|, j requires 0 <= j < |ix| => SkipPrefix(Strip(doc[ix[j]].text)))
  {
    var names := NamesOf(doc, ix);
    ConcatSingletons(names);
  }

  /** find_authors raises exactly when some tag makes is_namelike raise, and then with
      the exception of the first such tag. */
  lemma AuthorsRaise(doc: Doc, ctx: map<string, Option<int>>)
    requires WellFormed(doc)
    ensures AuthorsOutcome(doc, ctx).Raised? <==> exists j :: 0 <= j < |doc| && IsNamelike(doc, j, ctx).Err?
    ensures AuthorsOutcome(doc, ctx).Raised? ==>
      exists j: nat :: FirstErrorAt(Verdicts(doc, ctx), 0, j) && IsNamelike(doc, j, ctx) == Err(AuthorsOutcome(doc, ctx).fault)
  {
    AcceptedError(Verdicts(doc, ctx), 0);
  }

  /** Otherwise it finds authors exactly when some tag is name-like. */
  lemma AuthorsFound(doc: Doc, ctx: map<string, Option<int>>)
    requires WellFormed(doc)
    ensures AuthorsOutcome(doc, ctx).Found? <==>
      Namelike(doc, ctx).Ok? && exists t :: 0 <= t < |doc| && IsNamelike(doc, t, ctx) == Ok(true)
  {
    var verdicts := Verdicts(doc, ctx);
    if Accepted(verdicts, 0).Ok? {
      var ix := Accepted(verdicts, 0).value;
      AcceptedSome(verdicts, 0);
      NamesPerTag(doc, ctx);
      assert (exists t :: 0 <= t < |doc| && IsNamelike(doc, t, ctx) == Ok(true))
         <==> (exists t :: 0 <= t < |verdicts| && verdicts[t] == Ok(true)) by {
        if exists t :: 0 <= t < |doc| && IsNamelike(doc, t, ctx) == Ok(true) {
          var t :| 0 <= t < |doc| && IsNamelike(doc, t, ctx) == Ok(true);
          assert verdicts[t] == Ok(true);
        }
      }
    }
  }

  /** find_all accepts some tag exactly when some verdict is true. */
  lemma AcceptedSome(verdicts: seq<Result<bool>>, k: nat)
    requires k <= |verdicts| && Accepted(verdicts, k).Ok?
    ensures |Accepted(verdicts, k).value| > 0 <==> exists t :: k <= t < |verdicts| && verdicts[t] == Ok(true)
  {
    var ix := Accepted(verdicts, k).value;
    AcceptedSpec(verdicts, k);
    if |ix| > 0 {
      assert verdicts[ix[0]] == Ok(true);
    } else {
      forall t | k <= t < |verdicts| ensures verdicts[t] == Ok(false) {
        assert t !in ix;
      }
    }
  }

  /** When find_all succeeds, every tag it returns gives a name. */
  lemma NamesPerTag(doc: Doc, ctx: map<string, Option<int>>)
    requires WellFormed(doc) && Namelike(doc, ctx).Ok?
    ensures |Cleaned(doc, Namelike(doc, ctx).value)| == |Namelike(doc, ctx).value|
  {
    var verdicts := Verdicts(doc, ctx);
    var ix := Accepted(verdicts, 0).value;
    AcceptedSpec(verdicts, 0);
    forall j | 0 <= j < |ix| ensures Strip(doc[ix[j]].text) != "Æ" {
      NamelikeIsName(doc, ix[j], ctx);
    }
    CleanedKeepsAll(doc, ix);
  }

  /** The tags find_all returns are name-like, in strictly increasing document order,
      and every tag it leaves out is not. */
  lemma NamelikeSpec(doc: Doc, ctx: map<string, Option<int>>)
    requires WellFormed(doc) && Namelike(doc, ctx).Ok?
    ensures var ix := Namelike(doc, ctx).value;
      && (forall j :: 0 <= j < |ix| ==> IsNamelike(doc, ix[j], ctx) == Ok(true))
      && (forall j, j' :: 0 <= j < j' < |ix| ==> ix[j] < ix[j'])
      && (forall t :: 0 <= t < |doc| && t !in ix ==> IsNamelike(doc, t, ctx) == Ok(false))
  {
    AcceptedSpec(Verdicts(doc, ctx), 0);
  }

  /** The names found are the cleaned texts of those tags, one per tag, in document
      order. */
  lemma AuthorsNames(doc: Doc, ctx: map<string, Option<int>>)
    requires WellFormed(doc) && AuthorsOutcome(doc, ctx).Found?
    ensures Namelike(doc, ctx).Ok?
    ensures var ix := Namelike(doc, ctx).value;
      AuthorsOutcome(doc, ctx).value == seq(|ix|, j requires 0 <= j < |ix| => SkipPrefix(Strip(doc[ix[j]].text)))
  {
    var verdicts := Verdicts(doc, ctx);
    var ix := Accepted(verdicts, 0).value;
    AcceptedSpec(verdicts, 0);
    forall j | 0 <= j < |ix| ensures Strip(doc[ix[j]].text) != "Æ" {
      NamelikeIsName(doc, ix[j], ctx);
    }
    CleanedKeepsAll(doc, ix);
  }
}
