/** The parsed page as an arena of tags, and the attribute lookups of work.py:207-248:
    a tag's own attribute, optionally cast to int, and the value inherited from the
    nearest ancestor that has one. */
module Tags {
  import opened Base
  import opened Strings

  /** One tag of the parsed HTML.  `parent` is the index of the enclosing tag, or None
      when the tag sits directly under the document root (the BeautifulSoup object, which
      carries no attributes).  `text` is the tag's .text: all the text below it. */
  datatype Node = Node(name: string, parent: Option<nat>, attrs: map<string, string>, text: string)

  /** The tags in document order. */
  type Doc = seq<Node>

  /** Every tag comes after its parent, as in document order. */
  predicate WellFormed(doc: Doc) {
    forall i :: 0 <= i < |doc| && doc[i].parent.Some? ==> doc[i].parent.value < i
  }

  /** The tag's own page attribute, as preprocess_soup stamped it, is "1". */
  predicate OnFirstPage(n: Node) {
    "page" in n.attrs && n.attrs["page"] == "1"
  }

  /** The `cast` argument: None, or int. */
  datatype Cast = NoCast | IntCast

  /** An attribute value as _tag_value returns it: the raw string, or the int it casts to. */
  datatype AttrValue = Text(text: string) | Number(n: int)

  /** _tag_value(tag, name, cast) (work.py:207-211).  With int, a value int() rejects
      raises, and a value that casts to 0 is falsy and so counts as missing. */
  function OwnValue(n: Node, attr: string, cast: Cast): Result<Option<AttrValue>> {
    if attr !in n.attrs then Ok(None)
    else match cast
      case NoCast => Ok(Some(Text(n.attrs[attr])))
      case IntCast =>
        match ParseInt(n.attrs[attr])
        case None => Err(NotAnInteger(n.attrs[attr]))
        case Some(k) => if k == 0 then Ok(None) else Ok(Some(Number(k)))
  }

  /** tag_value(tag, attribute, inherited=True, cast) as a recursive definition: the own
      value, unless it is missing and there is a parent to ask. */
  function Inherited(doc: Doc, i: nat, attr: string, cast: Cast): Result<Option<AttrValue>>
    requires WellFormed(doc) && i < |doc|
    decreases i
  {
    var own := OwnValue(doc[i], attr, cast);
    if own != Ok(None) || doc[i].parent.None? then own
    else Inherited(doc, doc[i].parent.value, attr, cast)
  }

  /** The tag and its ancestors, nearest first. */
  function Chain(doc: Doc, i: nat): (c: seq<nat>)
    requires WellFormed(doc) && i < |doc|
    ensures |c| > 0 && c[0] == i
    ensures forall k :: 0 <= k < |c| ==> c[k] < |doc|
    ensures forall k :: 0 <= k < |c| - 1 ==> doc[c[k]].parent == Some(c[k + 1])
    ensures doc[c[|c| - 1]].parent.None?
    decreases i
  {
    if doc[i].parent.None? then [i] else [i] + Chain(doc, doc[i].parent.value)
  }

  /** The own lookups of the tags of chain c, in chain order. */
  function Lookups(doc: Doc, c: seq<nat>, attr: string, cast: Cast): (vs: seq<Result<Option<AttrValue>>>)
    requires forall k :: 0 <= k < |c| ==> c[k] < |doc|
    ensures |vs| == |c| && forall k :: 0 <= k < |c| ==> vs[k] == OwnValue(doc[c[k]], attr, cast)
  {
    if |c| == 0 then [] else [OwnValue(doc[c[0]], attr, cast)] + Lookups(doc, c[1..], attr, cast)
  }

  /** r is the first non-empty lookup of vs, or empty when every lookup is empty. */
  ghost predicate Nearest(vs: seq<Result<Option<AttrValue>>>, r: Result<Option<AttrValue>>) {
    if r == Ok(None) then
      forall k :: 0 <= k < |vs| ==> vs[k] == Ok(None)
    else
      exists j :: 0 <= j < |vs| && vs[j] == r && forall k :: 0 <= k < j ==> vs[k] == Ok(None)
  }

  /** r is what the first tag of chain c with a non-empty own lookup gives (a value or
      an exception), or empty when every own lookup on c is empty. */
  ghost predicate NearestOnChain(doc: Doc, c: seq<nat>, attr: string, cast: Cast, r: Result<Option<AttrValue>>)
    requires forall k :: 0 <= k < |c| ==> c[k] < |doc|
  {
    Nearest(Lookups(doc, c, attr, cast), r)
  }

  /** The inherited value is that of the nearest tag on the ancestor chain whose own
      lookup does not come back empty; when every lookup on the chain is empty, it is empty. */
  lemma {:induction false} InheritedNearest(doc: Doc, i: nat, attr: string, cast: Cast)
    requires WellFormed(doc) && i < |doc|
    ensures NearestOnChain(doc, Chain(doc, i), attr, cast, Inherited(doc, i, attr, cast))
    decreases i
  {
    var c := Chain(doc, i);
    var vs := Lookups(doc, c, attr, cast);
    var own := OwnValue(doc[i], attr, cast);
    assert vs[0] == own;
    if own != Ok(None) {
      assert Inherited(doc, i, attr, cast) == own;
    } else if doc[i].parent.Some? {
      var p := doc[i].parent.value;
      InheritedNearest(doc, p, attr, cast);
      NearestPrepend(doc, i, Chain(doc, p), attr, cast, Inherited(doc, p, attr, cast));
    } else {
      assert c == [i];
    }
  }

  /** A tag whose own lookup is empty, put in front of a chain, changes nothing. */
  lemma NearestPrepend(doc: Doc, i: nat, cp: seq<nat>, attr: string, cast: Cast, r: Result<Option<AttrValue>>)
    requires i < |doc| && forall k :: 0 <= k < |cp| ==> cp[k] < |doc|
    requires OwnValue(doc[i], attr, cast) == Ok(None) && NearestOnChain(doc, cp, attr, cast, r)
    ensures NearestOnChain(doc, [i] + cp, attr, cast, r)
  {
    assert ([i] + cp)[1..] == cp;
    assert Lookups(doc, [i] + cp, attr, cast) == [Ok(None)] + Lookups(doc, cp, attr, cast);
    NearestCons(Lookups(doc, cp, attr, cast), r);
  }

  /** An empty lookup in front of a list of lookups does not change the nearest one. */
  lemma NearestCons(vs: seq<Result<Option<AttrValue>>>, r: Result<Option<AttrValue>>)
    requires Nearest(vs, r)
    ensures Nearest([Ok(None)] + vs, r)
  {
    var ws := [Ok(None)] + vs;
    if r == Ok(None) {
      assert forall k :: 1 <= k < |ws| ==> ws[k] == vs[k - 1];
    } else {
      var j :| 0 <= j < |vs| && vs[j] == r && forall k :: 0 <= k < j ==> vs[k] == Ok(None);
      assert ws[j + 1] == r;
      assert forall k :: 1 <= k < j + 1 ==> ws[k] == vs[k - 1];
    }
  }

  /** A tag's own value hides whatever its ancestors have. */
  lemma OwnValueWins(doc: Doc, i: nat, attr: string, cast: Cast)
    requires WellFormed(doc) && i < |doc|
    requires OwnValue(doc[i], attr, cast).Ok? && OwnValue(doc[i], attr, cast).value.Some?
    ensures Inherited(doc, i, attr, cast) == OwnValue(doc[i], attr, cast)
  {
  }

  /** tag_value (work.py:213-228), with the source's loop: ask the tag, then its parent,
      until a value is found or the root is passed; an exception from _tag_value ends
      the walk. */
  method TagValue(doc: Doc, i: nat, attr: string, inherited: bool, cast: Cast)
    returns (r: Result<Option<AttrValue>>)
    requires WellFormed(doc) && i < |doc|
    ensures r == if inherited then Inherited(doc, i, attr, cast) else OwnValue(doc[i], attr, cast)
  {
    if !inherited {
      return OwnValue(doc[i], attr, cast);
    }
    var tag: nat := i;
    var result: Option<AttrValue> := None;
    while result.None?
      invariant tag < |doc|
      invariant result.None? ==> Inherited(doc, i, attr, cast) == Inherited(doc, tag, attr, cast)
      invariant result.Some? ==> Inherited(doc, i, attr, cast) == Ok(result)
      decreases tag
    {
      var own := OwnValue(doc[tag], attr, cast);
      if own.Err? {
        return own;
      }
      result := own.value;
      if doc[tag].parent.None? {
        break;
      }
      tag := doc[tag].parent.value;
    }
    return Ok(result);
  }

  /** An int-cast lookup as the callers use it. */
  function AsInt(r: Result<Option<AttrValue>>): Result<Option<int>> {
    match r
    case Err(f) => Err(f)
    case Ok(None) => Ok(None)
    case Ok(Some(v)) => if v.Number? then Ok(Some(v.n)) else Ok(None)
  }

  /** tag_value(tag, attr, cast=int) */
  function IntValue(doc: Doc, i: nat, attr: string): Result<Option<int>>
    requires WellFormed(doc) && i < |doc|
  {
    AsInt(Inherited(doc, i, attr, IntCast))
  }

  /** An int lookup that succeeds never gives 0, and gives the int() of the attribute of
      the tag or of one of its ancestors. */
  lemma {:induction false} IntValueFound(doc: Doc, i: nat, attr: string)
    requires WellFormed(doc) && i < |doc|
    requires IntValue(doc, i, attr).Ok? && IntValue(doc, i, attr).value.Some?
    ensures var v := IntValue(doc, i, attr).value.value;
      v != 0 && exists k :: 0 <= k < |Chain(doc, i)| && attr in doc[Chain(doc, i)[k]].attrs
                          && ParseInt(doc[Chain(doc, i)[k]].attrs[attr]) == Some(v)
  {
    InheritedNearest(doc, i, attr, IntCast);
  }

  /** Bounding rectangle as tag_rect returns it. */
  datatype Rect = Rect(x: Option<int>, y: Option<int>, w: Option<int>, h: Option<int>)

  /** The attributes tag_rect looks up, in the order of its loop body. */
  const RectAttrs: seq<string> := ["left", "top", "width", "height"]

  /** How many steps up the ancestor chain the inherited int lookup of attr goes: the
      position on the chain of the nearest tag whose own lookup is not empty. */
  function Depth(doc: Doc, i: nat, attr: string): (d: nat)
    requires WellFormed(doc) && i < |doc|
    ensures d < |Chain(doc, i)|
    ensures Inherited(doc, i, attr, IntCast) == OwnValue(doc[Chain(doc, i)[d]], attr, IntCast)
    decreases i
  {
    if OwnValue(doc[i], attr, IntCast) != Ok(None) || doc[i].parent.None? then 0
    else 1 + Depth(doc, doc[i].parent.value, attr)
  }

  /** tag_rect raises f first: f is the exception of one coordinate's inherited lookup,
      and every coordinate whose lookup raises does so further up the chain, or at the
      same tag but later in the order left, top, width, height. */
  ghost predicate FirstFault(doc: Doc, i: nat, f: Fault)
    requires WellFormed(doc) && i < |doc|
  {
    exists k :: 0 <= k < |RectAttrs| && IntValue(doc, i, RectAttrs[k]) == Err(f)
      && forall k' :: 0 <= k' < |RectAttrs| && IntValue(doc, i, RectAttrs[k']).Err? ==>
           var d, d' := Depth(doc, i, RectAttrs[k]), Depth(doc, i, RectAttrs[k']);
           d < d' || (d == d' && k <= k')
  }

  /** While coordinate attr is still missing at the tag `level` steps above i, the
      inherited value at i is the inherited value at that tag, found as many steps
      further up; once found, it is the inherited value at i. */
  ghost predicate Tracks(doc: Doc, i: nat, tag: nat, level: nat, attr: string, acc: Option<int>)
    requires WellFormed(doc) && i < |doc| && tag < |doc|
  {
    if acc.Some? then IntValue(doc, i, attr) == Ok(acc)
    else IntValue(doc, i, attr) == IntValue(doc, tag, attr)
         && Depth(doc, i, attr) == level + Depth(doc, tag, attr)
  }

  ghost predicate TracksAll(doc: Doc, i: nat, tag: nat, level: nat, result: seq<Option<int>>)
    requires WellFormed(doc) && i < |doc| && tag < |doc|
  {
    |result| == |RectAttrs|
    && forall k :: 0 <= k < |RectAttrs| ==> Tracks(doc, i, tag, level, RectAttrs[k], result[k])
  }

  /** The coordinates before k that are still missing after this tag's steps had an
      empty own lookup at this tag. */
  ghost predicate EmptyBefore(doc: Doc, tag: nat, result: seq<Option<int>>, k: nat)
    requires tag < |doc| && |result| == |RectAttrs| && k <= |RectAttrs|
  {
    forall k' :: 0 <= k' < k && result[k'].None? ==> OwnValue(doc[tag], RectAttrs[k'], IntCast) == Ok(None)
  }

  /** One coordinate's step of tag_rect's loop body at the tag `level` steps above i:
      `result[k] = result[k] or _tag_value(tag, attr, int)`.  An exception raised here
      is the first one tag_rect can raise. */
  method RectStep(doc: Doc, i: nat, tag: nat, ghost level: nat, result: seq<Option<int>>, k: nat)
    returns (r: Result<seq<Option<int>>>)
    requires WellFormed(doc) && i < |doc| && tag < |doc| && k < |RectAttrs|
    requires TracksAll(doc, i, tag, level, result) && EmptyBefore(doc, tag, result, k)
    ensures r.Err? ==> result[k].None? && IntValue(doc, i, RectAttrs[k]) == Err(r.fault) && FirstFault(doc, i, r.fault)
    ensures r.Ok? ==> TracksAll(doc, i, tag, level, r.value) && EmptyBefore(doc, tag, r.value, k + 1)
    ensures r.Ok? ==> forall k' :: 0 <= k' < |RectAttrs| && k' != k ==> r.value[k'] == result[k']
    ensures r.Ok? && result[k].Some? ==> r.value[k] == result[k]
  {
    if result[k].Some? {
      return Ok(result);
    }
    var own := AsInt(OwnValue(doc[tag], RectAttrs[k], IntCast));
    if own.Err? {
      RaisesFirst(doc, i, tag, level, result, k);
      return Err(own.fault);
    }
    r := Ok(result[k := own.value]);
    assert Tracks(doc, i, tag, level, RectAttrs[k], own.value);
  }

  /** The exception of coordinate k's own lookup at this tag comes before every other
      coordinate's: the ones still missing have their exception at this tag or further
      up, and the earlier ones in the body had an empty lookup here. */
  lemma RaisesFirst(doc: Doc, i: nat, tag: nat, level: nat, result: seq<Option<int>>, k: nat)
    requires WellFormed(doc) && i < |doc| && tag < |doc| && k < |RectAttrs|
    requires TracksAll(doc, i, tag, level, result) && EmptyBefore(doc, tag, result, k)
    requires result[k].None? && OwnValue(doc[tag], RectAttrs[k], IntCast).Err?
    ensures IntValue(doc, i, RectAttrs[k]) == AsInt(OwnValue(doc[tag], RectAttrs[k], IntCast))
    ensures FirstFault(doc, i, OwnValue(doc[tag], RectAttrs[k], IntCast).fault)
  {
    var f := OwnValue(doc[tag], RectAttrs[k], IntCast).fault;
    assert Tracks(doc, i, tag, level, RectAttrs[k], result[k]);
    assert Depth(doc, i, RectAttrs[k]) == level;
    forall k' | 0 <= k' < |RectAttrs| && IntValue(doc, i, RectAttrs[k']).Err?
      ensures var d, d' := Depth(doc, i, RectAttrs[k]), Depth(doc, i, RectAttrs[k']);
              d < d' || (d == d' && k <= k')
    {
      assert Tracks(doc, i, tag, level, RectAttrs[k'], result[k']);
      if k' < k {
        assert OwnValue(doc[tag], RectAttrs[k'], IntCast) == Ok(None);
      }
    }
  }

  /** Moving up to the parent keeps the still-missing coordinates tracked. */
  lemma TracksParent(doc: Doc, i: nat, tag: nat, level: nat, result: seq<Option<int>>)
    requires WellFormed(doc) && i < |doc| && tag < |doc| && doc[tag].parent.Some?
    requires TracksAll(doc, i, tag, level, result) && EmptyBefore(doc, tag, result, |RectAttrs|)
    ensures TracksAll(doc, i, doc[tag].parent.value, level + 1, result)
  {
    forall k | 0 <= k < |RectAttrs|
      ensures Tracks(doc, i, doc[tag].parent.value, level + 1, RectAttrs[k], result[k])
    {
      assert Tracks(doc, i, tag, level, RectAttrs[k], result[k]);
    }
  }

  /** tag_rect (work.py:231-248): the four coordinates walk up together; each keeps the
      first value it finds, the walk stops once all four are found or the root is passed,
      and the first exception from a lookup ends it. */
  method TagRect(doc: Doc, i: nat) returns (r: Result<Rect>)
    requires WellFormed(doc) && i < |doc|
    ensures r.Ok? <==> IntValue(doc, i, "left").Ok? && IntValue(doc, i, "top").Ok?
                       && IntValue(doc, i, "width").Ok? && IntValue(doc, i, "height").Ok?
    ensures r.Ok? ==> r.value == Rect(IntValue(doc, i, "left").value, IntValue(doc, i, "top").value,
                                      IntValue(doc, i, "width").value, IntValue(doc, i, "height").value)
    ensures r.Err? ==> FirstFault(doc, i, r.fault)
  {
    var result: seq<Option<int>> := [None, None, None, None];
    var tag: nat := i;
    ghost var level: nat := 0;
    while None in result
      invariant tag < |doc|
      invariant TracksAll(doc, i, tag, level, result)
      decreases tag
    {
      var next := RectLevel(doc, i, tag, level, result);
      if next.Err? {
        FaultFails(doc, i, next.fault);
        return Err(next.fault);
      }
      result := next.value;
      if doc[tag].parent.None? {
        RootReached(doc, i, tag, level, result);
        break;
      }
      TracksParent(doc, i, tag, level, result);
      tag, level := doc[tag].parent.value, level + 1;
    }
    RectFound(doc, i, result);
    return Ok(Rect(result[0], result[1], result[2], result[3]));
  }

  /** When every coordinate holds its inherited value, all four lookups succeed and the
      rectangle is made of them. */
  lemma RectFound(doc: Doc, i: nat, result: seq<Option<int>>)
    requires WellFormed(doc) && i < |doc| && |result| == |RectAttrs|
    requires forall k :: 0 <= k < |RectAttrs| ==> IntValue(doc, i, RectAttrs[k]) == Ok(result[k])
    ensures IntValue(doc, i, "left") == Ok(result[0]) && IntValue(doc, i, "top") == Ok(result[1])
    ensures IntValue(doc, i, "width") == Ok(result[2]) && IntValue(doc, i, "height") == Ok(result[3])
  {
    assert RectAttrs[0] == "left" && RectAttrs[1] == "top" && RectAttrs[2] == "width" && RectAttrs[3] == "height";
  }

  /** A first exception means some lookup fails. */
  lemma FaultFails(doc: Doc, i: nat, f: Fault)
    requires WellFormed(doc) && i < |doc| && FirstFault(doc, i, f)
    ensures !(IntValue(doc, i, "left").Ok? && IntValue(doc, i, "top").Ok?
              && IntValue(doc, i, "width").Ok? && IntValue(doc, i, "height").Ok?)
  {
    var k :| 0 <= k < |RectAttrs| && IntValue(doc, i, RectAttrs[k]) == Err(f);
    if k == 0 {
      assert RectAttrs[k] == "left";
    } else if k == 1 {
      assert RectAttrs[k] == "top";
    } else if k == 2 {
      assert RectAttrs[k] == "width";
    } else {
      assert RectAttrs[k] == "height";
    }
  }

  /** The body of tag_rect's loop at the tag `level` steps above i (work.py:240-243):
      the four coordinate steps in order, the first exception ending it. */
  method RectLevel(doc: Doc, i: nat, tag: nat, ghost level: nat, result: seq<Option<int>>)
    returns (r: Result<seq<Option<int>>>)
    requires WellFormed(doc) && i < |doc| && tag < |doc|
    requires TracksAll(doc, i, tag, level, result)
    ensures r.Err? ==> FirstFault(doc, i, r.fault)
    ensures r.Ok? ==> TracksAll(doc, i, tag, level, r.value) && EmptyBefore(doc, tag, r.value, |RectAttrs|)
  {
    var r0 := RectStep(doc, i, tag, level, result, 0);
    if r0.Err? { return Err(r0.fault); }
    var r1 := RectStep(doc, i, tag, level, r0.value, 1);
    if r1.Err? { return Err(r1.fault); }
    var r2 := RectStep(doc, i, tag, level, r1.value, 2);
    if r2.Err? { return Err(r2.fault); }
    r := RectStep(doc, i, tag, level, r2.value, 3);
  }

  /** At the root, a coordinate still missing has no value anywhere on the chain. */
  lemma RootReached(doc: Doc, i: nat, tag: nat, level: nat, result: seq<Option<int>>)
    requires WellFormed(doc) && i < |doc| && tag < |doc| && doc[tag].parent.None?
    requires TracksAll(doc, i, tag, level, result) && EmptyBefore(doc, tag, result, |RectAttrs|)
    ensures forall k :: 0 <= k < |RectAttrs| ==> IntValue(doc, i, RectAttrs[k]) == Ok(result[k])
  {
    forall k | 0 <= k < |RectAttrs| ensures IntValue(doc, i, RectAttrs[k]) == Ok(result[k]) {
      assert Tracks(doc, i, tag, level, RectAttrs[k], result[k]);
    }
  }

  /** A zero is falsy: a tag whose font-size casts to 0 takes its parent's size. */
  lemma ZeroFallsThrough()
    ensures var doc := [Node("div", None, map["font-size" := "12"], ""),
                        Node("span", Some(0), map["font-size" := "0"], "")];
      WellFormed(doc) && IntValue(doc, 1, "font-size") == Ok(Some(12))
  {
    var parent := Node("div", None, map["font-size" := "12"], "");
    var span := Node("span", Some(0), map["font-size" := "0"], "");
    var doc := [parent, span];
    ParseIntExamples();
    assert OwnValue(span, "font-size", IntCast) == Ok(None);
    assert OwnValue(parent, "font-size", IntCast) == Ok(Some(Number(12)));
    assert Inherited(doc, 1, "font-size", IntCast) == Inherited(doc, 0, "font-size", IntCast);
  }
}
