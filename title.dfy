/** The title stage (work.py:259-283): the title is the first span on page 1 whose own
    font size is at least MIN_TITLE_FONT_SIZE; its inherited font size goes into the
    context for the authors stage. */
module TitleStage {
  import opened Base
  import opened Strings
  import opened Tags
  import opened Normalize
  import opened SharedContext

  /** MIN_TITLE_FONT_SIZE (work.py:259) */
  const MinTitleFontSize: int := 15

  /** is_title(tag) (work.py:262-275): a span on page 1 with its own font-size, and that
      size, cast with int() (which raises on a non-integer), at least the minimum. */
  function IsTitle(n: Node): (r: Result<bool>)
    ensures r == Ok(true) <==> n.name == "span" && OnFirstPage(n) && "font-size" in n.attrs
                               && ParseInt(n.attrs["font-size"]).Some?
                               && ParseInt(n.attrs["font-size"]).value >= MinTitleFontSize
    ensures r.Err? <==> n.name == "span" && OnFirstPage(n) && "font-size" in n.attrs
                        && ParseInt(n.attrs["font-size"]).None?
  {
    if n.name != "span" || !OnFirstPage(n) then Ok(false)
    else if "font-size" !in n.attrs then Ok(false)
    else match ParseInt(n.attrs["font-size"])
      case None => Err(NotAnInteger(n.attrs["font-size"]))
      case Some(size) => Ok(!(size < MinTitleFontSize))
  }

  /** is_title on each tag. */
  function TitleTests(doc: Doc): (r: seq<Result<bool>>)
    ensures |r| == |doc| && forall j :: 0 <= j < |doc| ==> r[j] == IsTitle(doc[j])
  {
    seq(|doc|, j requires 0 <= j < |doc| => IsTitle(doc[j]))
  }

  /** The first test from k on that is true, or None, or the first error before it. */
  function FirstOk(rs: seq<Result<bool>>, k: nat): (r: Result<Option<nat>>)
    requires k <= |rs|
    ensures r.Ok? && r.value.Some? ==> k <= r.value.value < |rs| && rs[r.value.value] == Ok(true)
    decreases |rs| - k
  {
    if k == |rs| then Ok(None)
    else match rs[k]
      case Err(f) => Err(f)
      case Ok(b) => if b then Ok(Some(k)) else FirstOk(rs, k + 1)
  }

  /** When FirstOk succeeds, every test before the one it picks (or every test from k
      on, when it picks none) is false. */
  lemma {:induction false} FirstOkIsFirst(rs: seq<Result<bool>>, k: nat)
    requires k <= |rs| && FirstOk(rs, k).Ok?
    ensures forall j :: k <= j < |rs| && (FirstOk(rs, k).value.None? || j < FirstOk(rs, k).value.value)
              ==> rs[j] == Ok(false)
    decreases |rs| - k
  {
    if k < |rs| && rs[k] == Ok(false) {
      FirstOkIsFirst(rs, k + 1);
    }
  }

  /** soup.find(is_title) from tag k on: the first title, or None, or the exception
      is_title raised on a tag before any title. */
  function FirstTitle(doc: Doc, k: nat): (r: Result<Option<nat>>)
    requires k <= |doc|
    ensures r.Ok? && r.value.Some? ==> k <= r.value.value < |doc| && IsTitle(doc[r.value.value]) == Ok(true)
  {
    FirstOk(TitleTests(doc), k)
  }

  /** What find_title gives back and the context after it. */
  function TitleOutcome(doc: Doc, entries: map<string, Option<int>>): (Outcome<string>, map<string, Option<int>>)
    requires WellFormed(doc)
  {
    match FirstTitle(doc, 0)
    case Err(f) => (Raised(f), entries)
    case Ok(None) => (Insufficient("Title not found"), entries)
    case Ok(Some(t)) =>
      match IntValue(doc, t, "font-size")
      case Err(f) => (Raised(f), entries)
      case Ok(size) => (Found(NormalizeStr(doc[t].text)), entries["title-size" := size])
  }

  /** find_title(soup, context) (work.py:278-283), with soup.find as the loop over the
      tags in document order. */
  method FindTitle(doc: Doc, ctx: Context) returns (o: Outcome<string>)
    requires WellFormed(doc)
    modifies ctx
    ensures (o, ctx.entries) == TitleOutcome(doc, old(ctx.entries))
  {
    var i := 0;
    while i < |doc|
      invariant 0 <= i <= |doc|
      invariant FirstTitle(doc, 0) == FirstTitle(doc, i)
    {
      var isTitle := IsTitle(doc[i]);
      if isTitle.Err? {
        return Raised(isTitle.fault);
      }
      if isTitle.value {
        var size := IntValue(doc, i, "font-size");
        if size.Err? {
          return Raised(size.fault);
        }
        ctx.Set("title-size", size.value);
        return Found(NormalizeStr(doc[i].text));
      }
      i := i + 1;
    }
    return Insufficient("Title not found");
  }

  /** The title found is the first qualifying tag: every tag before it is not a title,
      and none of them makes is_title raise. */
  lemma FirstTitleIsFirst(doc: Doc, k: nat)
    requires k <= |doc| && FirstTitle(doc, k).Ok?
    ensures forall j :: k <= j < |doc| && (FirstTitle(doc, k).value.None? || j < FirstTitle(doc, k).value.value)
              ==> IsTitle(doc[j]) == Ok(false)
  {
    FirstOkIsFirst(TitleTests(doc), k);
  }

  /** The size recorded for the title is its own font size: it is an integer of at
      least 15, so not falsy, and the inherited lookup stops at the tag itself.  So
      find_title never raises once a title is found. */
  lemma TitleSizeIsOwn(doc: Doc, t: nat)
    requires WellFormed(doc) && t < |doc| && IsTitle(doc[t]) == Ok(true)
    ensures IntValue(doc, t, "font-size") == Ok(Some(ParseInt(doc[t].attrs["font-size"]).value))
    ensures ParseInt(doc[t].attrs["font-size"]).value >= MinTitleFontSize
  {
    OwnValueWins(doc, t, "font-size", IntCast);
  }

  /** find_title's contract: a title found is the normalised text of the first span on
      page 1 with own font size at least 15, and the context gains its font size under
      "title-size" and nothing else; when there is no title, or is_title raises first,
      the context is left alone. */
  lemma TitleOutcomeSpec(doc: Doc, entries: map<string, Option<int>>)
    requires WellFormed(doc)
    ensures var (o, e) := TitleOutcome(doc, entries);
      && (o.Found? <==> FirstTitle(doc, 0).Ok? && FirstTitle(doc, 0).value.Some?)
      && (o.Found? ==> var t := FirstTitle(doc, 0).value.value;
            && o.value == NormalizeStr(doc[t].text)
            && e == entries["title-size" := Some(ParseInt(doc[t].attrs["font-size"]).value)]
            && ParseInt(doc[t].attrs["font-size"]).value >= MinTitleFontSize)
      && (!o.Found? ==> e == entries)
      && (o.Insufficient? <==> FirstTitle(doc, 0) == Ok(None))
      && (o.Raised? ==> FirstTitle(doc, 0).Err? && o.fault == FirstTitle(doc, 0).fault)
  {
    if FirstTitle(doc, 0).Ok? && FirstTitle(doc, 0).value.Some? {
      TitleSizeIsOwn(doc, FirstTitle(doc, 0).value.value);
    }
  }
}
