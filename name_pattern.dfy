/** RE_AUTHOR_NAME and RE_PREFIX_SKIP (work.py:287-292).  The name group is
    NC+ (Zs NC+)+ where NC is a name-component character and Zs a space separator,
    optionally preceded by a separator (',' or U+00B7) and one or more Zs.  re.match
    anchors at the start but not at the end, so a string matches when some prefix of it
    is in the pattern's language.

    The pattern's structure does not depend on what the two classes contain, so the
    recogniser and its language are stated for any pair of classes `nc` (components)
    and `zs` (spaces); AuthorName fixes them to the Unicode classes of the source. */
module NamePattern {
  import opened UnicodeClasses

  type CharClass = char -> bool

  /** The alternation (,|·) of _RE_PREFIX_SKIP. */
  predicate IsSeparator(c: char) {
    c == ',' || c == '·'
  }

  /** Every character of s[a..b] is in class cl. */
  ghost predicate AllIn(s: string, a: int, b: int, cl: CharClass) {
    forall t :: a <= t < b && 0 <= t < |s| ==> cl(s[t])
  }

  /** The language of NC+ (Zs NC+)*. */
  ghost predicate Words(w: string, nc: CharClass, zs: CharClass)
    decreases |w|
  {
    (|w| > 0 && AllIn(w, 0, |w|, nc))
    || exists i :: 0 < i < |w| - 1 && AllIn(w, 0, i, nc) && zs(w[i]) && Words(w[i + 1..], nc, zs)
  }

  /** The language of the name group NC+ (Zs NC+)+. */
  ghost predicate FullName(w: string, nc: CharClass, zs: CharClass) {
    exists i :: 0 < i < |w| - 1 && AllIn(w, 0, i, nc) && zs(w[i]) && Words(w[i + 1..], nc, zs)
  }

  /** RE_AUTHOR_NAME.match(s) is not None, stated on the pattern's language. */
  ghost predicate PatternMatches(s: string, nc: CharClass, zs: CharClass) {
    (exists e :: 0 <= e <= |s| && FullName(s[..e], nc, zs))
    || (|s| > 0 && IsSeparator(s[0])
        && exists j, e :: 1 < j <= e <= |s| && AllIn(s, 1, j, zs) && FullName(s[j..e], nc, zs))
  }

  /** Inside the first word of a name, at position k: a space followed by a component
      character completes a match; another component character continues the word. */
  predicate NameFrom(s: string, k: nat, nc: CharClass, zs: CharClass)
    decreases |s| - k
  {
    (k + 1 < |s| && zs(s[k]) && nc(s[k + 1]))
    || (k < |s| && nc(s[k]) && NameFrom(s, k + 1, nc, zs))
  }

  /** The name group matches at position p. */
  predicate NameAt(s: string, p: nat, nc: CharClass, zs: CharClass) {
    p < |s| && nc(s[p]) && NameFrom(s, p + 1, nc, zs)
  }

  /** At position k inside the run of spaces after a separator. */
  predicate SpacesThenName(s: string, k: nat, nc: CharClass, zs: CharClass)
    decreases |s| - k
  {
    k < |s| && zs(s[k]) && (NameAt(s, k + 1, nc, zs) || SpacesThenName(s, k + 1, nc, zs))
  }

  /** The recogniser for the whole pattern. */
  predicate Matches(s: string, nc: CharClass, zs: CharClass) {
    NameAt(s, 0, nc, zs) || (|s| > 0 && IsSeparator(s[0]) && SpacesThenName(s, 1, nc, zs))
  }

  /** bool(RE_AUTHOR_NAME.match(s)) with the classes of the source. */
  predicate AuthorName(s: string) {
    Matches(s, IsNameComponent, IsSpaceSeparator)
  }

  lemma {:induction false} WordsHead(w: string, nc: CharClass, zs: CharClass)
    requires Words(w, nc, zs)
    ensures |w| > 0 && nc(w[0])
  {
  }

  /** A successful scan names the space that ends the first word. */
  lemma {:induction false} NameFromWitness(s: string, k: nat, nc: CharClass, zs: CharClass)
    requires NameFrom(s, k, nc, zs)
    ensures exists q :: k <= q && q + 1 < |s| && zs(s[q]) && nc(s[q + 1]) && AllIn(s, k, q, nc)
    decreases |s| - k
  {
    if !(k + 1 < |s| && zs(s[k]) && nc(s[k + 1])) {
      NameFromWitness(s, k + 1, nc, zs);
      var q :| k + 1 <= q && q + 1 < |s| && zs(s[q]) && nc(s[q + 1]) && AllIn(s, k + 1, q, nc);
      assert AllIn(s, k, q, nc);
    }
  }

  /** Conversely, a space after a run of component characters makes the scan succeed. */
  lemma {:induction false} NameFromOfWitness(s: string, k: nat, q: nat, nc: CharClass, zs: CharClass)
    requires k <= q && q + 1 < |s| && zs(s[q]) && nc(s[q + 1]) && AllIn(s, k, q, nc)
    ensures NameFrom(s, k, nc, zs)
    decreases q - k
  {
    if k < q {
      NameFromOfWitness(s, k + 1, q, nc, zs);
    }
  }

  /** A match found by the scan is a prefix in the name group's language. */
  lemma NameAtSound(s: string, p: nat, nc: CharClass, zs: CharClass)
    requires NameAt(s, p, nc, zs)
    ensures exists e :: p <= e <= |s| && FullName(s[p..e], nc, zs)
  {
    NameFromWitness(s, p + 1, nc, zs);
    var q :| p + 1 <= q && q + 1 < |s| && zs(s[q]) && nc(s[q + 1]) && AllIn(s, p + 1, q, nc);
    var w := s[p..q + 2];
    assert AllIn(w, 0, q - p, nc) by {
      forall t | 0 <= t < q - p ensures nc(w[t]) {
        assert w[t] == s[p + t];
      }
    }
    assert Words(w[q - p + 1..], nc, zs) by {
      assert w[q - p + 1..] == [s[q + 1]];
    }
    assert FullName(w, nc, zs);
  }

  /** Every prefix in the name group's language is found by the scan. */
  lemma NameAtComplete(s: string, p: nat, e: nat, nc: CharClass, zs: CharClass)
    requires p <= e <= |s| && FullName(s[p..e], nc, zs)
    ensures NameAt(s, p, nc, zs)
  {
    var w := s[p..e];
    var i :| 0 < i < |w| - 1 && AllIn(w, 0, i, nc) && zs(w[i]) && Words(w[i + 1..], nc, zs);
    WordsHead(w[i + 1..], nc, zs);
    assert w[0] == s[p];
    assert AllIn(s, p + 1, p + i, nc) by {
      forall t | p + 1 <= t < p + i ensures nc(s[t]) {
        assert w[t - p] == s[t];
      }
    }
    assert w[i + 1..][0] == s[p + i + 1];
    NameFromOfWitness(s, p + 1, p + i, nc, zs);
  }

  /** The scan from p decides exactly whether the name group matches at p. */
  lemma NameAtSpec(s: string, p: nat, nc: CharClass, zs: CharClass)
    ensures NameAt(s, p, nc, zs) <==> exists e :: p <= e <= |s| && FullName(s[p..e], nc, zs)
  {
    if NameAt(s, p, nc, zs) {
      NameAtSound(s, p, nc, zs);
    }
    if e :| p <= e <= |s| && FullName(s[p..e], nc, zs) {
      NameAtComplete(s, p, e, nc, zs);
    }
  }

  /** The scan of the space run decides the optional-prefix branch of the pattern. */
  lemma {:induction false} SpacesThenNameSpec(s: string, k: nat, nc: CharClass, zs: CharClass)
    requires 1 <= k && AllIn(s, 1, k, zs)
    ensures SpacesThenName(s, k, nc, zs) <==>
      exists j, e :: k < j <= e <= |s| && AllIn(s, 1, j, zs) && FullName(s[j..e], nc, zs)
    decreases |s| - k
  {
    if k < |s| && zs(s[k]) {
      NameAtSpec(s, k + 1, nc, zs);
      SpacesThenNameSpec(s, k + 1, nc, zs);
      if j, e :| k < j <= e <= |s| && AllIn(s, 1, j, zs) && FullName(s[j..e], nc, zs) {
        if j == k + 1 {
          assert NameAt(s, k + 1, nc, zs);
        } else {
          assert AllIn(s, 1, k + 1, zs);
        }
      }
      if NameAt(s, k + 1, nc, zs) {
        var e :| k + 1 <= e <= |s| && FullName(s[k + 1..e], nc, zs);
        assert AllIn(s, 1, k + 1, zs);
      }
    } else {
      forall j | k < j <= |s| ensures !AllIn(s, 1, j, zs) {
        assert !zs(s[k]);
      }
    }
  }

  /** The recogniser accepts exactly the strings the pattern matches a prefix of. */
  lemma MatchesSpec(s: string, nc: CharClass, zs: CharClass)
    ensures Matches(s, nc, zs) <==> PatternMatches(s, nc, zs)
  {
    NameAtSpec(s, 0, nc, zs);
    assert forall e :: 0 <= e <= |s| ==> s[0..e] == s[..e];
    if |s| > 0 && IsSeparator(s[0]) {
      SpacesThenNameSpec(s, 1, nc, zs);
    }
  }

  /** A name needs a space between two words, so a string of fewer than three characters
      never matches; in particular the "Æ" exclusion in find_authors (work.py:321-322)
      never fires. */
  lemma ShortNeverMatches(s: string, nc: CharClass, zs: CharClass)
    requires |s| < 3
    ensures !PatternMatches(s, nc, zs)
  {
    forall e | 0 <= e <= |s| ensures !FullName(s[..e], nc, zs) {
      assert |s[..e]| < 3;
    }
    forall j, e | 1 < j <= e <= |s| ensures !FullName(s[j..e], nc, zs) {
      assert |s[j..e]| < 3;
    }
  }

  /** s with its leading run of space separators removed. */
  function DropSpaces(s: string): (r: string)
    ensures |r| <= |s| && r == s[|s| - |r|..]
    ensures forall t :: 0 <= t < |s| - |r| ==> IsSpaceSeparator(s[t])
    ensures |r| > 0 ==> !IsSpaceSeparator(r[0])
  {
    if |s| > 0 && IsSpaceSeparator(s[0]) then DropSpaces(s[1..]) else s
  }

  /** cleaned[end:] after RE_PREFIX_SKIP.search(cleaned) (work.py:324-327): a leading
      separator and the maximal run of spaces after it are removed; a string that does not
      start with a separator and a space is kept as it is. */
  function SkipPrefix(s: string): (r: string)
    ensures |r| <= |s| && r == s[|s| - |r|..]
    ensures |r| == |s| <==> !(|s| >= 2 && IsSeparator(s[0]) && IsSpaceSeparator(s[1]))
    ensures |r| < |s| ==> IsSeparator(s[0]) && (forall t :: 1 <= t < |s| - |r| ==> IsSpaceSeparator(s[t]))
                          && (|r| > 0 ==> !IsSpaceSeparator(r[0]))
  {
    if |s| >= 2 && IsSeparator(s[0]) && IsSpaceSeparator(s[1]) then DropSpaces(s[1..]) else s
  }

  /** An initial and a surname is a name, kept whole. */
  lemma AcceptedInitialName()
    ensures AuthorName("J. Smith") && SkipPrefix("J. Smith") == "J. Smith"
  {
    var s := "J. Smith";
    assert s[0] == 'J' && s[1] == '.' && s[2] == ' ' && s[3] == 'S';
    assert IsNameComponent(s[0]) && IsNameComponent(s[1]) && IsNameComponent(s[3]);
    SpaceSeparatorSpec(s[2]);
    assert NameFrom(s, 2, IsNameComponent, IsSpaceSeparator);
    assert NameFrom(s, 1, IsNameComponent, IsSpaceSeparator);
  }

  /** A name with letters outside ASCII is accepted. */
  lemma AcceptedAccentedName()
    ensures AuthorName("Ana Marić")
  {
    assert NameFrom("Ana Marić", 3, IsNameComponent, IsSpaceSeparator);
  }

  /** After a middle dot, the run of spaces is followed by a name, so the optional
      prefix branch of the pattern accepts... */
  lemma AcceptedDottedName()
    ensures IsSeparator("· Ivo Ivić"[0]) && SpacesThenName("· Ivo Ivić", 1, IsNameComponent, IsSpaceSeparator)
  {
    assert NameFrom("· Ivo Ivić", 5, IsNameComponent, IsSpaceSeparator);
    assert NameAt("· Ivo Ivić", 2, IsNameComponent, IsSpaceSeparator);
  }

  /** ...and the name is stored without the dot and the space. */
  lemma DottedNameCleaned()
    ensures SkipPrefix("· Ivo Ivić") == "Ivo Ivić"
  {
    SpaceSeparatorSpec(' ');
    SpaceSeparatorSpec('I');
    assert " Ivo Ivić"[1..] == "Ivo Ivić";
  }

  /** A name with a double surname is accepted. */
  lemma AcceptedHyphenatedName()
    ensures AuthorName("Maria García-López")
  {
    assert NameFrom("Maria García-López", 5, IsNameComponent, IsSpaceSeparator);
  }

  /** A hyphen-minus inside the first word is a name component: the dash class belongs
      to the components, so the word runs on to the space. */
  lemma HyphenInFirstWord()
    ensures AuthorName("Jo-Ann Lee")
  {
    var s := "Jo-Ann Lee";
    assert s[2] == '-' && IsDash(s[2]);
    assert NameFrom(s, 6, IsNameComponent, IsSpaceSeparator);
  }

  /** After a comma, the run of spaces is followed by a name, so the optional prefix
      branch of the pattern accepts... */
  lemma AcceptedCommaName()
    ensures IsSeparator(", A. Author"[0]) && SpacesThenName(", A. Author", 1, IsNameComponent, IsSpaceSeparator)
  {
    var s := ", A. Author";
    assert s[1] == ' ' && s[2] == 'A' && s[3] == '.' && s[4] == ' ' && s[5] == 'A';
    SpaceSeparatorSpec(s[1]);
    SpaceSeparatorSpec(s[4]);
    assert NameFrom(s, 4, IsNameComponent, IsSpaceSeparator);
    assert NameAt(s, 2, IsNameComponent, IsSpaceSeparator);
  }

  /** ...and the name is stored without the comma and the space. */
  lemma CommaNameCleaned()
    ensures SkipPrefix(", A. Author") == "A. Author"
  {
    SpaceSeparatorSpec(' ');
    SpaceSeparatorSpec('A');
    assert " A. Author"[1..] == "A. Author";
  }

  /** A single word, however long, is not a name. */
  lemma SingleWordRejected()
    ensures !AuthorName("Smith")
  {
    forall k | 0 <= k < 5 ensures !IsSpaceSeparator("Smith"[k]) {
      SpaceSeparatorSpec("Smith"[k]);
    }
    assert !NameFrom("Smith", 5, IsNameComponent, IsSpaceSeparator);
    assert !NameFrom("Smith", 4, IsNameComponent, IsSpaceSeparator);
    assert !NameFrom("Smith", 3, IsNameComponent, IsSpaceSeparator);
    assert !NameFrom("Smith", 2, IsNameComponent, IsSpaceSeparator);
  }
}
