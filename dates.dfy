/** The dates stage (work.py:337-373): the first span on page 1 whose text starts with
    a date keyword gives the vertical position and font size of the dates block to the
    context, and its first line is split into the received, accepted and published
    dates. */
module DateStage {
  import opened Base
  import opened Strings
  import opened Tags
  import opened SharedContext

  /** DATE_KEYWORDS (work.py:355-360), in the order they are tried. */
  const DateKeywords: seq<string> := ["received:", "accepted:", "published:", "published online:"]

  // ---------------------------------------------------------------------------------
  // parse_dates

  /** The phase a date segment belongs to, by the start of its lower-cased text; a
      segment that names none of them counts as published. */
  function Phase(c: string): (p: string)
    ensures p in {"received", "accepted", "published"}
  {
    var l := Lower(c);
    if StartsWith(l, "received") then "received"
    else if StartsWith(l, "accepted") then "accepted"
    else if StartsWith(l, "published") then "published"
    else "published"
  }

  /** `c.split(":")[1].strip()`: the stripped text after the first colon, up to the next
      one; a segment without a colon raises IndexError. */
  function DateText(c: string): Result<string> {
    var parts := Split(c, ':');
    if |parts| < 2 then Err(NoColon(c)) else Ok(Strip(parts[1]))
  }

  /** `map(lambda it: it.strip(), content.split("/"))` */
  function Segments(content: string): seq<string> {
    StripEach(Split(content, '/'))
  }

  /** The loop of parse_dates over segs, from the dict acc: each segment sets its phase,
      the first segment that raises ends it. */
  function Fill(segs: seq<string>, acc: Dict<string>): Result<Dict<string>> {
    if |segs| == 0 then Ok(acc)
    else match DateText(segs[0])
      case Err(f) => Err(f)
      case Ok(t) => Fill(segs[1..], DictSet(acc, Phase(segs[0]), t))
  }

  /** parse_dates(content) */
  function DateFields(content: string): Result<Dict<string>> {
    Fill(Segments(content), [])
  }

  /** parse_dates (work.py:337-352) with its loop. */
  method ParseDates(content: string) returns (r: Result<Dict<string>>)
    ensures r == DateFields(content)
  {
    var segs := Segments(content);
    var result: Dict<string> := [];
    var i := 0;
    while i < |segs|
      invariant 0 <= i <= |segs|
      invariant Fill(segs, []) == Fill(segs[i..], result)
    {
      var c := segs[i];
      var phase := Phase(c);
      var parts := Split(c, ':');
      if |parts| < 2 {
        return Err(NoColon(c));
      }
      assert segs[i..][1..] == segs[i + 1..];
      assert Fill(segs[i..], result) == Fill(segs[i + 1..], DictSet(result, phase, Strip(parts[1])));
      result := DictSet(result, phase, Strip(parts[1]));
      i := i + 1;
    }
    assert segs[i..] == [];
    return Ok(result);
  }

  /** The text a date gets lies between the first colon of its segment and the next. */
  lemma DateTextBetweenColons(c: string)
    requires ':' in c
    ensures var i := IndexOf(c, ':');
      var rest := c[i + 1..];
      DateText(c) == Ok(Strip(rest[..IndexOf(rest, ':')]))
  {
    SplitAtFirst(c, ':');
    SplitAtFirst(c[IndexOf(c, ':') + 1..], ':');
  }

  /** A segment has a date exactly when it has a colon. */
  lemma DateTextOk(c: string)
    ensures DateText(c).Ok? <==> ':' in c
  {
    SplitAtFirst(c, ':');
  }

  /** The segments of segs that set phase p: the text of the last one, if any. */
  function LastDate(segs: seq<string>, p: string): Option<string> {
    if |segs| == 0 then None
    else match LastDate(segs[1..], p)
      case Some(t) => Some(t)
      case None =>
        if Phase(segs[0]) == p && DateText(segs[0]).Ok? then Some(DateText(segs[0]).value) else None
  }

  /** Every segment has a colon. */
  ghost predicate AllDated(segs: seq<string>) {
    forall j :: 0 <= j < |segs| ==> ':' in segs[j]
  }

  /** parse_dates succeeds exactly when every segment has a colon, and then each phase
      holds the date of the last segment of that phase (or what it held before); the
      keys stay distinct and are phase names. */
  lemma FillSpec(segs: seq<string>, acc: Dict<string>)
    requires DistinctKeys(acc)
    ensures Fill(segs, acc).Ok? <==> AllDated(segs)
    ensures Fill(segs, acc).Ok? ==> var d := Fill(segs, acc).value;
      && DistinctKeys(d)
      && forall p :: DictGet(d, p) == if LastDate(segs, p).Some? then LastDate(segs, p) else DictGet(acc, p)
  {
    FillOkIffDated(segs, acc);
    FillValues(segs, acc);
  }

  /** parse_dates succeeds exactly when every segment has a colon. */
  lemma {:induction false} FillOkIffDated(segs: seq<string>, acc: Dict<string>)
    ensures Fill(segs, acc).Ok? <==> AllDated(segs)
  {
    if |segs| > 0 {
      var c := segs[0];
      DateTextOk(c);
      if DateText(c).Ok? {
        FillOkIffDated(segs[1..], DictSet(acc, Phase(c), DateText(c).value));
        assert AllDated(segs) <==> AllDated(segs[1..]) by {
          forall j | 0 < j < |segs| ensures segs[j] == segs[1..][j - 1] {}
        }
      }
    }
  }

  /** What parse_dates gives back holds, for each phase, the date of the last segment of
      that phase, or what acc held for it. */
  lemma {:induction false} FillValues(segs: seq<string>, acc: Dict<string>)
    requires DistinctKeys(acc)
    ensures Fill(segs, acc).Ok? ==> var d := Fill(segs, acc).value;
      && DistinctKeys(d)
      && forall p :: DictGet(d, p) == if LastDate(segs, p).Some? then LastDate(segs, p) else DictGet(acc, p)
  {
    if |segs| > 0 && DateText(segs[0]).Ok? {
      var c := segs[0];
      var acc' := DictSet(acc, Phase(c), DateText(c).value);
      DictSetGet(acc, Phase(c), DateText(c).value);
      FillValues(segs[1..], acc');
    }
  }

  /** When parse_dates raises, it is IndexError on the first segment without a colon. */
  lemma {:induction false} FillFirstError(segs: seq<string>, acc: Dict<string>)
    requires Fill(segs, acc).Err?
    ensures exists j :: 0 <= j < |segs| && ':' !in segs[j] && Fill(segs, acc).fault == NoColon(segs[j])
                       && forall j' :: 0 <= j' < j ==> ':' in segs[j']
  {
    var c := segs[0];
    SplitAtFirst(c, ':');
    if DateText(c).Ok? {
      var rest := segs[1..];
      var acc' := DictSet(acc, Phase(c), DateText(c).value);
      assert Fill(segs, acc) == Fill(rest, acc');
      FillFirstError(rest, acc');
      var j :| 0 <= j < |rest| && ':' !in rest[j] && Fill(rest, acc').fault == NoColon(rest[j])
               && forall j' :: 0 <= j' < j ==> ':' in rest[j'];
      assert segs[j + 1] == rest[j];
      forall j' | 0 < j' < j + 1 ensures ':' in segs[j'] {
        assert segs[j'] == rest[j' - 1];
      }
    }
  }

  /** LastDate names the last segment of the phase: segment j has phase p and gives that
      date, and no later segment has phase p. */
  lemma {:induction false} LastDateIsLast(segs: seq<string>, p: string)
    requires AllDated(segs) && LastDate(segs, p).Some?
    ensures exists j :: 0 <= j < |segs| && Phase(segs[j]) == p && DateText(segs[j]) == Ok(LastDate(segs, p).value)
                       && forall j' :: j < j' < |segs| ==> Phase(segs[j']) != p
  {
    var rest := segs[1..];
    assert AllDated(rest) by {
      forall j | 0 <= j < |rest| ensures ':' in rest[j] { assert rest[j] == segs[j + 1]; }
    }
    if LastDate(rest, p).Some? {
      LastDateIsLast(rest, p);
      var j :| 0 <= j < |rest| && Phase(rest[j]) == p && DateText(rest[j]) == Ok(LastDate(rest, p).value)
               && forall j' :: j < j' < |rest| ==> Phase(rest[j']) != p;
      assert segs[j + 1] == rest[j];
      forall j' | j + 1 < j' < |segs| ensures Phase(segs[j']) != p {
        assert segs[j'] == rest[j' - 1];
      }
    } else {
      LastDateNone(rest, p);
      forall j' | 0 < j' < |segs| ensures Phase(segs[j']) != p {
        assert segs[j'] == rest[j' - 1];
      }
      SplitAtFirst(segs[0], ':');
    }
  }

  /** No date for a phase means no segment has that phase. */
  lemma {:induction false} LastDateNone(segs: seq<string>, p: string)
    requires AllDated(segs) && LastDate(segs, p).None?
    ensures forall j :: 0 <= j < |segs| ==> Phase(segs[j]) != p
  {
    if |segs| > 0 {
      var rest := segs[1..];
      assert AllDated(rest) by {
        forall j | 0 <= j < |rest| ensures ':' in rest[j] { assert rest[j] == segs[j + 1]; }
      }
      LastDateNone(rest, p);
      forall j | 0 < j < |segs| ensures Phase(segs[j]) != p {
        assert segs[j] == rest[j - 1];
      }
      SplitAtFirst(segs[0], ':');
    }
  }

  /** The keys parse_dates produces are phase names. */
  lemma {:induction false} FillKeys(segs: seq<string>, acc: Dict<string>)
    requires forall j :: 0 <= j < |acc| ==> acc[j].0 in {"received", "accepted", "published"}
    requires Fill(segs, acc).Ok?
    ensures forall j :: 0 <= j < |Fill(segs, acc).value| ==>
              Fill(segs, acc).value[j].0 in {"received", "accepted", "published"}
  {
    if |segs| > 0 {
      var c := segs[0];
      var acc' := DictSet(acc, Phase(c), DateText(c).value);
      assert forall j :: 0 <= j < |acc'| ==> acc'[j].0 in {"received", "accepted", "published"};
      FillKeys(segs[1..], acc');
    }
  }

  /** A non-empty string with no whitespace at either end, and without c. */
  ghost predicate Trimmed(s: string, c: char) {
    |s| > 0 && !IsWhitespace(s[0]) && !IsWhitespace(s[|s| - 1]) && c !in s
  }

  /** Three slash-free segments joined by " / " split around the slashes, each piece
      keeping the spaces next to its slash. */
  lemma SplitThree(sa: string, sb: string, sc: string)
    requires '/' !in sa && '/' !in sb && '/' !in sc
    ensures Split(sa + " / " + sb + " / " + sc, '/') == [sa + " ", " " + sb + " ", " " + sc]
  {
    var a, b, c := sa + " ", " " + sb + " ", " " + sc;
    var tail := b + "/" + c;
    SlashJoin(sa, sb, sc);
    SplitAbsent(c, '/');
    SplitCons(b, '/', c);
    SplitCons(a, '/', tail);
  }

  /** " / " is a slash with a space on each side, so the padding goes with the pieces. */
  lemma SlashJoin(sa: string, sb: string, sc: string)
    ensures sa + " / " + sb + " / " + sc == (sa + " ") + "/" + ((" " + sb + " ") + "/" + (" " + sc))
  {
    assert " / " == " " + "/" + " ";
  }

  /** Three slash-free segments joined by " / " come back out, stripped, in order. */
  lemma ThreeSegments(sa: string, sb: string, sc: string)
    requires Trimmed(sa, '/') && Trimmed(sb, '/') && Trimmed(sc, '/')
    ensures Segments(sa + " / " + sb + " / " + sc) == [sa, sb, sc]
  {
    assert Split(sa + " / " + sb + " / " + sc, '/') == [sa + " ", " " + sb + " ", " " + sc] by {
      SplitThree(sa, sb, sc);
    }
    StripSpaceAfter(sa);
    StripSpaceAround(sb);
    StripSpaceBefore(sc);
    StripEachThree(sa + " ", " " + sb + " ", " " + sc);
  }

  lemma StripEachThree(x: string, y: string, z: string)
    ensures StripEach([x, y, z]) == [Strip(x), Strip(y), Strip(z)]
  {
  }

  /** A segment made of a keyword ending in ": " and a date, with no other colon, gives
      its phase that date. */
  lemma DatedSegment(key: string, date: string)
    requires |key| >= 2 && key[|key| - 2..] == ": " && ':' !in key[..|key| - 2] && Trimmed(date, ':')
    ensures DateText(key + date) == Ok(date)
  {
    var k := key[..|key| - 2];
    assert key + date == k + [':'] + (" " + date);
    SplitCons(k, ':', " " + date);
    SplitAbsent(" " + date, ':');
    StripSpaceBefore(date);
  }

  /** Three segments of the three phases, in order, give a dict of the three dates in
      that order. */
  lemma FillThree(sa: string, sb: string, sc: string, r: string, a: string, p: string)
    requires Phase(sa) == "received" && Phase(sb) == "accepted" && Phase(sc) == "published"
    requires DateText(sa) == Ok(r) && DateText(sb) == Ok(a) && DateText(sc) == Ok(p)
    ensures Fill([sa, sb, sc], []) == Ok([("received", r), ("accepted", a), ("published", p)])
  {
    var d1 := [("received", r)];
    var d2 := [("received", r), ("accepted", a)];
    assert [sa, sb, sc] == [sa] + [sb, sc] && [sb, sc] == [sb] + [sc] && [sc] == [sc] + [];
    ThreeDicts(r, a, p);
    FillNewKey(sa, [sb, sc], [], "received", r);
    FillNewKey(sb, [sc], d1, "accepted", a);
    FillNewKey(sc, [], d2, "published", p);
  }

  /** The dicts parse_dates builds on the usual line, one key at a time. */
  lemma ThreeDicts(r: string, a: string, p: string)
    ensures [] + [("received", r)] == [("received", r)]
    ensures [("received", r)] + [("accepted", a)] == [("received", r), ("accepted", a)]
    ensures [("received", r), ("accepted", a)] + [("published", p)]
         == [("received", r), ("accepted", a), ("published", p)]
    ensures !HasKey([("received", r)], "accepted")
    ensures !HasKey([("received", r), ("accepted", a)], "published")
  {
  }

  /** A segment whose phase is not yet in acc appends its date to acc. */
  lemma FillNewKey(c: string, rest: seq<string>, acc: Dict<string>, key: string, t: string)
    requires Phase(c) == key && DateText(c) == Ok(t) && !HasKey(acc, key)
    ensures Fill([c] + rest, acc) == Fill(rest, acc + [(key, t)])
  {
    assert ([c] + rest)[0] == c && ([c] + rest)[1..] == rest;
  }

  /** A keyword in front keeps a trimmed date trimmed. */
  lemma TrimmedAfter(key: string, d: string, c: char)
    requires |key| > 0 && !IsWhitespace(key[0]) && c !in key && Trimmed(d, c)
    ensures Trimmed(key + d, c)
  {
    assert (key + d)[0] == key[0] && (key + d)[|key + d| - 1] == d[|d| - 1];
  }

  /** The three keywords the phases are named after, each followed by a date. */
  lemma PhasesOfKeywords(r: string, a: string, p: string)
    ensures Phase("Received: " + r) == "received" && Phase("Accepted: " + a) == "accepted"
    ensures Phase("Published: " + p) == "published"
  {
    var sa, sb := "Received: " + r, "Accepted: " + a;
    assert Lower(sa)[..8] == "received";
    assert Lower(sb)[0] == 'a';
    assert Lower(sb)[..8] == "accepted";
  }

  /** Each of the three keywords ends in ": " and has no other colon, as a dated segment
      needs. */
  predicate KeywordShaped(key: string)
  {
    |key| >= 2 && key[|key| - 2..] == ": " && ':' !in key[..|key| - 2]
  }

  lemma KeywordsShaped()
    ensures KeywordShaped("Received: ") && KeywordShaped("Accepted: ")
    ensures KeywordShaped("Published: ")
  {
    assert "Received: "[..8] == "Received";
    assert "Accepted: "[..8] == "Accepted";
    assert "Published: "[..9] == "Published";
  }

  /** The usual dates line splits into its three keyword segments. */
  lemma SegmentsOfKeywords(r: string, a: string, p: string)
    requires Trimmed(r, '/') && Trimmed(a, '/') && Trimmed(p, '/')
    ensures Segments("Received: " + r + " / Accepted: " + a + " / Published: " + p)
         == ["Received: " + r, "Accepted: " + a, "Published: " + p]
  {
    var sa, sb, sc := "Received: " + r, "Accepted: " + a, "Published: " + p;
    KeywordsLine(r, a, p);
    KeywordsTrimmed(r, a, p);
    ThreeSegments(sa, sb, sc);
  }

  /** The usual dates line is its three keyword segments joined by " / ". */
  lemma KeywordsLine(r: string, a: string, p: string)
    ensures "Received: " + r + " / Accepted: " + a + " / Published: " + p
         == ("Received: " + r) + " / " + ("Accepted: " + a) + " / " + ("Published: " + p)
  {
    assert " / Accepted: " == " / " + "Accepted: ";
    assert " / Published: " == " / " + "Published: ";
  }

  /** Keywords without a slash keep trimmed dates trimmed. */
  lemma KeywordsTrimmed(r: string, a: string, p: string)
    requires Trimmed(r, '/') && Trimmed(a, '/') && Trimmed(p, '/')
    ensures Trimmed("Received: " + r, '/') && Trimmed("Accepted: " + a, '/')
    ensures Trimmed("Published: " + p, '/')
  {
    TrimmedAfter("Received: ", r, '/');
    TrimmedAfter("Accepted: ", a, '/');
    TrimmedAfter("Published: ", p, '/');
  }

  /** The usual dates line, "Received: r / Accepted: a / Published: p": each date goes to
      its own phase, in the order the line gives them. */
  lemma ParseThreeDates(r: string, a: string, p: string)
    requires Trimmed(r, ':') && Trimmed(a, ':') && Trimmed(p, ':')
    requires Trimmed(r, '/') && Trimmed(a, '/') && Trimmed(p, '/')
    ensures DateFields("Received: " + r + " / Accepted: " + a + " / Published: " + p)
         == Ok([("received", r), ("accepted", a), ("published", p)])
  {
    SegmentsOfKeywords(r, a, p);
    KeywordsShaped();
    DatedSegment("Received: ", r);
    DatedSegment("Accepted: ", a);
    DatedSegment("Published: ", p);
    PhasesOfKeywords(r, a, p);
    FillThree("Received: " + r, "Accepted: " + a, "Published: " + p, r, a, p);
  }

  /** The worked example: three dates, each under its own phase. */
  lemma ParseDatesExample()
    ensures DateFields("Received: " + "12 Jan 2020" + " / Accepted: " + "3 Mar 2020" + " / Published: " + "10 Apr 2020")
         == Ok([("received", "12 Jan 2020"), ("accepted", "3 Mar 2020"), ("published", "10 Apr 2020")])
  {
    ParseThreeDates("12 Jan 2020", "3 Mar 2020", "10 Apr 2020");
  }

  // ---------------------------------------------------------------------------------
  // find_dates

  /** The first of keys that s starts with. */
  function FirstPrefix(s: string, keys: seq<string>): (r: Option<nat>)
    ensures r.Some? ==> r.value < |keys| && StartsWith(s, keys[r.value])
                        && forall j :: 0 <= j < r.value ==> !StartsWith(s, keys[j])
    ensures r.None? ==> forall j :: 0 <= j < |keys| ==> !StartsWith(s, keys[j])
  {
    if |keys| == 0 then None
    else if StartsWith(s, keys[0]) then Some(0)
    else match FirstPrefix(s, keys[1..])
      case None => None
      case Some(j) => Some(j + 1)
  }

  /** The first of the keywords that the lower-cased, stripped text of a tag starts with. */
  function KeywordOf(n: Node, keys: seq<string>): Option<string> {
    match FirstPrefix(Lower(Strip(n.text)), keys)
    case None => None
    case Some(j) => Some(keys[j])
  }

  /** The inner loop of find_dates over DATE_KEYWORDS. */
  method MatchKeyword(lowered: string) returns (r: Option<nat>)
    ensures r == FirstPrefix(lowered, DateKeywords)
  {
    var j := 0;
    while j < |DateKeywords|
      invariant 0 <= j <= |DateKeywords|
      invariant FirstPrefix(lowered, DateKeywords) ==
                match FirstPrefix(lowered, DateKeywords[j..])
                case None => None
                case Some(m) => Some(m + j)
    {
      assert DateKeywords[j..][1..] == DateKeywords[j + 1..];
      if StartsWith(lowered, DateKeywords[j]) {
        return Some(j);
      }
      j := j + 1;
    }
    return None;
  }

  /** A span on page 1 whose text starts with one of the keywords. */
  predicate IsDateSpan(n: Node, keys: seq<string>) {
    n.name == "span" && OnFirstPage(n) && KeywordOf(n, keys).Some?
  }

  /** Which tags are date spans. */
  function DateSpans(doc: Doc, keys: seq<string>): (r: seq<bool>)
    ensures |r| == |doc| && forall j :: 0 <= j < |doc| ==> r[j] == IsDateSpan(doc[j], keys)
  {
    seq(|doc|, j requires 0 <= j < |doc| => IsDateSpan(doc[j], keys))
  }

  /** The first true entry from k on. */
  function FirstTrue(bs: seq<bool>, k: nat): (r: Option<nat>)
    requires k <= |bs|
    ensures r.Some? ==> k <= r.value < |bs| && bs[r.value]
    decreases |bs| - k
  {
    if k == |bs| then None
    else if bs[k] then Some(k)
    else FirstTrue(bs, k + 1)
  }

  /** No entry before the one FirstTrue picks (from k on) is true; with none picked, no
      entry from k on is. */
  lemma {:induction false} FirstTrueIsFirst(bs: seq<bool>, k: nat)
    requires k <= |bs|
    ensures FirstTrue(bs, k).Some? ==> forall j :: k <= j < FirstTrue(bs, k).value ==> !bs[j]
    ensures FirstTrue(bs, k).None? ==> forall j :: k <= j < |bs| ==> !bs[j]
    decreases |bs| - k
  {
    if k < |bs| && !bs[k] {
      FirstTrueIsFirst(bs, k + 1);
    }
  }

  /** The first date span from tag k on. */
  function FirstDateSpan(doc: Doc, k: nat, keys: seq<string>): (r: Option<nat>)
    requires k <= |doc|
    ensures r.Some? ==> k <= r.value < |doc| && IsDateSpan(doc[r.value], keys)
  {
    FirstTrue(DateSpans(doc, keys), k)
  }

  /** The span chosen is the first date span from tag k on; with none chosen, no tag
      from k on is a date span. */
  lemma FirstDateSpanIsFirst(doc: Doc, k: nat, keys: seq<string>)
    requires k <= |doc|
    ensures FirstDateSpan(doc, k, keys).Some? ==>
            forall j :: k <= j < FirstDateSpan(doc, k, keys).value ==> !IsDateSpan(doc[j], keys)
    ensures FirstDateSpan(doc, k, keys).None? ==> forall j :: k <= j < |doc| ==> !IsDateSpan(doc[j], keys)
  {
    FirstTrueIsFirst(DateSpans(doc, keys), k);
  }

  /** One step of the search: tag k is the date span or the search goes on past it. */
  lemma FirstDateSpanStep(doc: Doc, k: nat, keys: seq<string>)
    requires k < |doc|
    ensures FirstDateSpan(doc, k, keys) ==
            if IsDateSpan(doc[k], keys) then Some(k) else FirstDateSpan(doc, k + 1, keys)
    ensures IsDateSpan(doc[k], keys) <==>
            doc[k].name == "span" && OnFirstPage(doc[k]) && FirstPrefix(Lower(Strip(doc[k].text)), keys).Some?
    ensures IsDateSpan(doc[k], keys) ==>
            KeywordOf(doc[k], keys) == Some(keys[FirstPrefix(Lower(Strip(doc[k].text)), keys).value])
  {
  }

  /** `s.lower()[:n]`: a slice past the end stops at the end. */
  function LowerPrefix(s: string, n: nat): string {
    var l := Lower(s);
    if n <= |l| then l[..n] else l
  }

  /** Which lines start with begin, lower-cased. */
  function LineMatches(lines: seq<string>, begin: string): (r: seq<bool>)
    ensures |r| == |lines| && forall j :: 0 <= j < |lines| ==> r[j] == (LowerPrefix(lines[j], |begin|) == begin)
  {
    seq(|lines|, j requires 0 <= j < |lines| => LowerPrefix(lines[j], |begin|) == begin)
  }

  /** `next(filter(lambda it: begin == it.lower()[:len(begin)], lines))`, as an index. */
  function FirstLineWith(lines: seq<string>, begin: string): (r: Option<nat>)
    ensures r.Some? ==> r.value < |lines| && LowerPrefix(lines[r.value], |begin|) == begin
  {
    FirstTrue(LineMatches(lines, begin), 0)
  }

  /** The line search of find_dates with next() as a loop. */
  method FindLine(lines: seq<string>, begin: string) returns (r: Option<nat>)
    ensures r == FirstLineWith(lines, begin)
  {
    ghost var bs := LineMatches(lines, begin);
    var j := 0;
    while j < |lines|
      invariant 0 <= j <= |lines|
      invariant FirstLineWith(lines, begin) == FirstTrue(bs, j)
    {
      if LowerPrefix(lines[j], |begin|) == begin {
        return Some(j);
      }
      j := j + 1;
    }
    return None;
  }

  /** What find_dates gives back and the context after it, for the keyword list keys
      (DATE_KEYWORDS in find_dates). */
  function DatesOutcome(doc: Doc, entries: map<string, Option<int>>, keys: seq<string>)
    : (Outcome<Dict<string>>, map<string, Option<int>>)
    requires WellFormed(doc)
  {
    match FirstDateSpan(doc, 0, keys)
    case None => (Insufficient("Dates not found"), entries)
    case Some(d) => SpanOutcome(doc, d, entries, KeywordOf(doc[d], keys).value)
  }

  /** What find_dates gives back once it has found the date span d and its keyword
      begin: date-start is written before the font size is looked up, so an exception
      there leaves date-start set. */
  function SpanOutcome(doc: Doc, d: nat, entries: map<string, Option<int>>, begin: string)
    : (Outcome<Dict<string>>, map<string, Option<int>>)
    requires WellFormed(doc) && d < |doc|
  {
    match IntValue(doc, d, "top")
    case Err(f) => (Raised(f), entries)
    case Ok(top) =>
      var e1 := entries["date-start" := top];
      match IntValue(doc, d, "font-size")
      case Err(f) => (Raised(f), e1)
      case Ok(size) =>
        var e2 := e1["date-size" := size];
        var lines := Split(Strip(doc[d].text), '\n');
        match FirstLineWith(lines, begin)
        case None => (Raised(NoMatchingLine), e2)
        case Some(j) =>
          match DateFields(lines[j])
          case Err(f) => (Raised(f), e2)
          case Ok(dates) => (Found(dates), e2)
  }

  /** find_dates(soup, context) (work.py:363-373). */
  method FindDates(doc: Doc, ctx: Context) returns (o: Outcome<Dict<string>>)
    requires WellFormed(doc)
    modifies ctx
    ensures (o, ctx.entries) == DatesOutcome(doc, old(ctx.entries), DateKeywords)
  {
    var d, begin := FindSpan(doc);
    if d.None? {
      return Insufficient("Dates not found");
    }
    o := ReadSpan(doc, d.value, begin, ctx);
  }

  /** The loop of find_dates over the spans on page 1 and, inside it, the loop over the
      keywords: the first date span and the keyword it starts with. */
  method FindSpan(doc: Doc) returns (d: Option<nat>, begin: string)
    ensures d == FirstDateSpan(doc, 0, DateKeywords)
    ensures d.Some? ==> begin == KeywordOf(doc[d.value], DateKeywords).value
  {
    var i := 0;
    while i < |doc|
      invariant 0 <= i <= |doc|
      invariant FirstDateSpan(doc, 0, DateKeywords) == FirstDateSpan(doc, i, DateKeywords)
    {
      FirstDateSpanStep(doc, i, DateKeywords);
      if doc[i].name == "span" && OnFirstPage(doc[i]) {
        var k := MatchKeyword(Lower(Strip(doc[i].text)));
        if k.Some? {
          return Some(i), DateKeywords[k.value];
        }
      }
      i := i + 1;
    }
    return None, "";
  }

  /** The body of find_dates once the span i has matched the keyword begin: the writes
      to the context, the line search and parse_dates. */
  method ReadSpan(doc: Doc, i: nat, begin: string, ctx: Context) returns (o: Outcome<Dict<string>>)
    requires WellFormed(doc) && i < |doc|
    modifies ctx
    ensures (o, ctx.entries) == SpanOutcome(doc, i, old(ctx.entries), begin)
  {
    var content := Strip(doc[i].text);
    var top := IntValue(doc, i, "top");
    if top.Err? {
      return Raised(top.fault);
    }
    ctx.Set("date-start", top.value);
    var size := IntValue(doc, i, "font-size");
    if size.Err? {
      return Raised(size.fault);
    }
    ctx.Set("date-size", size.value);
    var lines := Split(content, '\n');
    var line := FindLine(lines, begin);
    if line.None? {
      return Raised(NoMatchingLine);
    }
    var dates := ParseDates(lines[line.value]);
    if dates.Err? {
      return Raised(dates.fault);
    }
    return Found(dates.value);
  }

  /** No keyword contains a newline. */
  ghost predicate NoNewline(keys: seq<string>) {
    forall j :: 0 <= j < |keys| ==> '\n' !in keys[j]
  }

  lemma DateKeywordsHaveNoNewline()
    ensures NoNewline(DateKeywords)
  {
  }

  /** The line search cannot fail: the text starts with the keyword and the keyword has
      no newline, so the first line already starts with it (lower-cased). */
  lemma FirstLineMatches(content: string, begin: string)
    requires StartsWith(Lower(content), begin) && '\n' !in begin
    ensures FirstLineWith(Split(content, '\n'), begin) == Some(0)
  {
    SplitAtFirst(content, '\n');
    var n := IndexOf(content, '\n');
    var line := Split(content, '\n')[0];
    assert line == content[..n];
    assert forall m :: 0 <= m < |begin| ==> content[m] != '\n' by {
      forall m | 0 <= m < |begin| ensures content[m] != '\n' {
        assert Lower(content)[m] == begin[m];
      }
    }
    assert |begin| <= n;
    assert LowerPrefix(line, |begin|) == begin by {
      assert forall m :: 0 <= m < |begin| ==> Lower(line)[m] == Lower(content)[m];
    }
  }

  /** For a span that starts with a keyword, the keyword's line is the first line. */
  lemma FirstLineOfSpan(n: Node, keys: seq<string>)
    requires NoNewline(keys) && KeywordOf(n, keys).Some?
    ensures FirstLineWith(Split(Strip(n.text), '\n'), KeywordOf(n, keys).value) == Some(0)
  {
    var content := Strip(n.text);
    var j := FirstPrefix(Lower(content), keys).value;
    assert KeywordOf(n, keys).value == keys[j];
    FirstLineMatches(content, keys[j]);
  }

  /** find_dates's contract: the dates come from the first line of the first span on
      page 1 whose stripped, lower-cased text starts with a keyword; date-start and
      date-size are the span's inherited top and font size; with no such span the
      stage is insufficient and the context untouched.  An exception is the first of the
      two lookups' and parse_dates's, with the context as far as it was written (see
      RaisedAt): next() never runs out of lines. */
  lemma DatesOutcomeSpec(doc: Doc, entries: map<string, Option<int>>, keys: seq<string>)
    requires WellFormed(doc) && NoNewline(keys)
    ensures var (o, e) := DatesOutcome(doc, entries, keys);
      && (o.Insufficient? <==> FirstDateSpan(doc, 0, keys).None?)
      && (o.Insufficient? ==> e == entries)
      && (o.Found? ==> var d := FirstDateSpan(doc, 0, keys).value;
            && IntValue(doc, d, "top").Ok? && IntValue(doc, d, "font-size").Ok?
            && e == entries["date-start" := IntValue(doc, d, "top").value]
                           ["date-size" := IntValue(doc, d, "font-size").value]
            && DateFields(Split(Strip(doc[d].text), '\n')[0]) == Ok(o.value))
      && (o.Raised? ==> var d := FirstDateSpan(doc, 0, keys).value;
            RaisedAt(doc, d, entries, o.fault, e))
  {
    match FirstDateSpan(doc, 0, keys)
    case None =>
    case Some(d) =>
      FirstLineOfSpan(doc[d], keys);
      SpanOutcomeSpec(doc, d, entries, KeywordOf(doc[d], keys).value);
  }

  /** How find_dates fails on the date span d, and the context it leaves behind: a
      failing top lookup raises its exception before any write; a failing font-size
      lookup raises its exception after date-start is written; otherwise both sizes are
      written and parse_dates raises on the keyword line. */
  ghost predicate RaisedAt(doc: Doc, d: nat, entries: map<string, Option<int>>,
                           f: Fault, e: map<string, Option<int>>)
    requires WellFormed(doc) && d < |doc|
  {
    var top := IntValue(doc, d, "top");
    var size := IntValue(doc, d, "font-size");
    var dates := DateFields(Split(Strip(doc[d].text), '\n')[0]);
    if top.Err? then
      f == top.fault && e == entries
    else if size.Err? then
      f == size.fault && e == entries["date-start" := top.value]
    else
      dates.Err? && f == dates.fault
      && e == entries["date-start" := top.value]["date-size" := size.value]
  }

  /** Once the span is found the stage is never insufficient.  The context gets both
      sizes whenever both lookups succeed, whether parse_dates then succeeds or raises;
      an exception is the first of top's, font-size's and parse_dates's. */
  lemma SpanOutcomeSpec(doc: Doc, d: nat, entries: map<string, Option<int>>, begin: string)
    requires WellFormed(doc) && d < |doc|
    requires FirstLineWith(Split(Strip(doc[d].text), '\n'), begin) == Some(0)
    ensures var (o, e) := SpanOutcome(doc, d, entries, begin);
      && !o.Insufficient?
      && (o.Found? ==>
            && IntValue(doc, d, "top").Ok? && IntValue(doc, d, "font-size").Ok?
            && e == entries["date-start" := IntValue(doc, d, "top").value]
                           ["date-size" := IntValue(doc, d, "font-size").value]
            && DateFields(Split(Strip(doc[d].text), '\n')[0]) == Ok(o.value))
      && (o.Raised? ==> RaisedAt(doc, d, entries, o.fault, e))
  {
  }
}
