/** normalize_str (work.py:187-204): strip the text, then replace every run of
    newlines, tabs and Zs spaces by one ASCII space. */
module Normalize {
  import opened Strings
  import opened UnicodeClasses

  /** The character class of RE_WHITESPACE: newline, tab and the Zs spaces (work.py:190). */
  predicate IsCollapsible(c: char) {
    c == '\n' || c == '\t' || IsSpaceSeparator(c)
  }

  /** Everything RE_WHITESPACE matches is whitespace to str.strip() as well. */
  lemma CollapsibleIsWhitespace(c: char)
    requires IsCollapsible(c)
    ensures IsWhitespace(c)
  {
    if IsSpaceSeparator(c) {
      SpaceSeparatorSpec(c);
    }
  }

  /** s without its leading run of collapsible characters. */
  function DropRun(s: string): (r: string)
    ensures |r| <= |s| && r == s[|s| - |r|..]
    ensures forall i :: 0 <= i < |s| - |r| ==> IsCollapsible(s[i])
    ensures |r| > 0 ==> !IsCollapsible(r[0])
  {
    if |s| > 0 && IsCollapsible(s[0]) then DropRun(s[1..]) else s
  }

  /** No collapsible character but a single ' ' directly followed by a non-collapsible one:
      the shape RE_WHITESPACE.sub(" ", _) leaves behind. */
  ghost predicate Collapsed(t: string) {
    forall i :: 0 <= i < |t| && IsCollapsible(t[i]) ==>
      t[i] == ' ' && (i + 1 < |t| ==> !IsCollapsible(t[i + 1]))
  }

  /** RE_WHITESPACE.sub(" ", s): each maximal run of collapsible characters becomes " ". */
  function Collapse(s: string): (r: string)
    ensures Collapsed(r)
    ensures |s| > 0 ==> |r| > 0 && r[0] == (if IsCollapsible(s[0]) then ' ' else s[0])
  {
    if |s| == 0 then ""
    else if IsCollapsible(s[0]) then " " + Collapse(DropRun(s[1..]))
    else [s[0]] + Collapse(s[1..])
  }

  /** normalize_str(content) */
  function NormalizeStr(content: string): string {
    Collapse(Strip(content))
  }

  /** The characters RE_WHITESPACE does not match, in order. */
  function Visible(s: string): string {
    if |s| == 0 then "" else (if IsCollapsible(s[0]) then "" else [s[0]]) + Visible(s[1..])
  }

  lemma {:induction false} VisibleDropRun(s: string)
    ensures Visible(DropRun(s)) == Visible(s)
  {
    if |s| > 0 && IsCollapsible(s[0]) {
      VisibleDropRun(s[1..]);
    }
  }

  /** Collapsing only rewrites runs: the other characters survive unchanged and in order. */
  lemma {:induction false} CollapseKeepsVisible(s: string)
    ensures Visible(Collapse(s)) == Visible(s)
  {
    if |s| > 0 {
      if IsCollapsible(s[0]) {
        VisibleDropRun(s[1..]);
        CollapseKeepsVisible(DropRun(s[1..]));
        assert IsSpaceSeparator(' ');
        assert Visible(" " + Collapse(DropRun(s[1..]))) == Visible(Collapse(DropRun(s[1..])));
      } else {
        CollapseKeepsVisible(s[1..]);
        assert ([s[0]] + Collapse(s[1..]))[1..] == Collapse(s[1..]);
      }
    }
  }

  /** A string that ends in a non-collapsible character keeps that last character. */
  lemma {:induction false} CollapseKeepsLast(s: string)
    requires |s| > 0 && !IsCollapsible(s[|s| - 1])
    ensures |Collapse(s)| > 0 && Collapse(s)[|Collapse(s)| - 1] == s[|s| - 1]
  {
    if IsCollapsible(s[0]) {
      var d := DropRun(s[1..]);
      assert |d| > 0;
      CollapseKeepsLast(d);
    } else if |s| > 1 {
      CollapseKeepsLast(s[1..]);
    }
  }

  /** A string already in collapsed shape is left as it is. */
  lemma {:induction false} CollapseFixesCollapsed(t: string)
    requires Collapsed(t)
    ensures Collapse(t) == t
  {
    if |t| > 0 {
      assert Collapsed(t[1..]) by {
        forall i | 0 <= i < |t[1..]| && IsCollapsible(t[1..][i])
          ensures t[1..][i] == ' ' && (i + 1 < |t[1..]| ==> !IsCollapsible(t[1..][i + 1]))
        {
          assert t[1..][i] == t[i + 1];
        }
      }
      CollapseFixesCollapsed(t[1..]);
      if IsCollapsible(t[0]) {
        assert DropRun(t[1..]) == t[1..];
      }
    }
  }

  /** The output has no newline, no tab, no two adjacent Zs spaces, and no whitespace at
      either end; and the characters that are not newline, tab or Zs are those of the
      stripped input, in order. */
  lemma NormalizeShape(content: string)
    ensures var r := NormalizeStr(content);
      && (forall i :: 0 <= i < |r| ==> r[i] != '\n' && r[i] != '\t')
      && (forall i :: 0 <= i < |r| - 1 ==> !(IsSpaceSeparator(r[i]) && IsSpaceSeparator(r[i + 1])))
      && (|r| > 0 ==> !IsWhitespace(r[0]) && !IsWhitespace(r[|r| - 1]))
      && Visible(r) == Visible(Strip(content))
  {
    var t := Strip(content);
    var r := Collapse(t);
    CollapseKeepsVisible(t);
    if |t| > 0 {
      if IsCollapsible(t[0]) { CollapsibleIsWhitespace(t[0]); }
      if IsCollapsible(t[|t| - 1]) { CollapsibleIsWhitespace(t[|t| - 1]); }
      CollapseKeepsLast(t);
    }
  }

  /** normalize_str(normalize_str(s)) == normalize_str(s) */
  lemma NormalizeIdempotent(content: string)
    ensures NormalizeStr(NormalizeStr(content)) == NormalizeStr(content)
  {
    var r := NormalizeStr(content);
    NormalizeShape(content);
    StripStable(r);
    CollapseFixesCollapsed(r);
  }
}
