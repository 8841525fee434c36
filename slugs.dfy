/**
 * The test-id slug the client pages build from a label:
 * `label.toLowerCase().replace(/\s+/g, '-')`, that is, lower-case the label,
 * then replace every maximal run of whitespace with a single '-'.
 */
module Slugs {

  /** JavaScript's `\s`: the ASCII whitespace characters, the no-break space,
      the Unicode space separators, the line and paragraph separators and the BOM. */
  predicate IsSpace(c: char): (space: bool)
    ensures c == ' ' || c == '\t' || c == '\n' || c == '\r' ==> space
    ensures 'a' <= c <= 'z' || 'A' <= c <= 'Z' || '0' <= c <= '9' || c == '-' ==> !space
    ensures c as int < 128 ==> (space <==> c == ' ' || '\t' <= c <= '\r')
  {
    || c == ' '
    || '\t' <= c <= '\r'
    || c == '\U{A0}'
    || c == '\U{1680}'
    || '\U{2000}' <= c <= '\U{200A}'
    || c == '\U{2028}'
    || c == '\U{2029}'
    || c == '\U{202F}'
    || c == '\U{205F}'
    || c == '\U{3000}'
    || c == '\U{FEFF}'
  }

  ghost predicate SpaceFree(s: string)
  {
    forall i :: 0 <= i < |s| ==> !IsSpace(s[i])
  }

  ghost predicate AllSpace(s: string)
  {
    forall i :: 0 <= i < |s| ==> IsSpace(s[i])
  }

  /** `toLowerCase` on one character, for the ASCII letters. */
  function LowerChar(c: char): (d: char)
    ensures IsSpace(d) <==> IsSpace(c)
    ensures 'A' <= c <= 'Z' ==> 'a' <= d <= 'z' && d as int == c as int + 32
    ensures !('A' <= c <= 'Z') ==> d == c
  {
    if 'A' <= c <= 'Z' then (c as int + 32) as char else c
  }

  function Lower(s: string): (r: string)
    ensures |r| == |s|
    ensures forall i :: 0 <= i < |s| ==> r[i] == LowerChar(s[i])
  {
    seq(|s|, i requires 0 <= i < |s| => LowerChar(s[i]))
  }

  /** What is left once the leading whitespace run is skipped. */
  function DropSpaces(s: string): (r: string)
    ensures |r| <= |s| && r == s[|s| - |r|..]
    ensures AllSpace(s[..|s| - |r|])
    ensures r == [] || !IsSpace(r[0])
  {
    if s == [] || !IsSpace(s[0]) then s
    else
      var r := DropSpaces(s[1..]);
      assert s[1..][..|s[1..]| - |r|] == s[1..|s| - |r|];
      r
  }

  /** `replace(/\s+/g, '-')`: each whitespace run becomes one '-'. */
  function DashRuns(s: string): (r: string)
    ensures |r| <= |s|
    ensures SpaceFree(r)
    decreases |s|
  {
    if s == [] then []
    else if IsSpace(s[0]) then
      var rest := DashRuns(DropSpaces(s[1..]));
      ConsSpaceFree('-', rest);
      "-" + rest
    else
      var rest := DashRuns(s[1..]);
      ConsSpaceFree(s[0], rest);
      [s[0]] + rest
  }

  lemma ConsSpaceFree(c: char, r: string)
    requires !IsSpace(c) && SpaceFree(r)
    ensures SpaceFree([c] + r)
  {
    assert forall i :: 0 < i <= |r| ==> ([c] + r)[i] == r[i - 1];
  }

  /** The test-id slug of a label. */
  function Slug(s: string): (r: string)
    ensures |r| <= |s|
    ensures SpaceFree(r)
  {
    DashRuns(Lower(s))
  }

  // ------------------------------------------------------------ properties

  lemma SpaceFreeTail(s: string)
    requires s != [] && SpaceFree(s)
    ensures SpaceFree(s[1..])
  {
    forall i | 0 <= i < |s[1..]| ensures !IsSpace(s[1..][i]) {
      assert s[1..][i] == s[i + 1];
    }
  }

  lemma AllSpaceTail(s: string)
    requires s != [] && AllSpace(s)
    ensures AllSpace(s[1..])
  {
    forall i | 0 <= i < |s[1..]| ensures IsSpace(s[1..][i]) {
      assert s[1..][i] == s[i + 1];
    }
  }

  /** A string with no whitespace passes through the replacement unchanged. */
  lemma {:induction false} DashRunsSpaceFree(s: string)
    requires SpaceFree(s)
    ensures DashRuns(s) == s
    decreases |s|
  {
    if s != [] {
      SpaceFreeTail(s);
      DashRunsSpaceFree(s[1..]);
      assert s == [s[0]] + s[1..];
    }
  }

  /** A whitespace-free prefix passes through unchanged, whatever follows it. */
  lemma {:induction false} DashRunsKeepsPrefix(x: string, z: string)
    requires SpaceFree(x)
    ensures DashRuns(x + z) == x + DashRuns(z)
    decreases |x|
  {
    if x == [] {
      assert x + z == z;
    } else {
      SpaceFreeTail(x);
      DashRunsKeepsPrefix(x[1..], z);
      DashRunsPrefixStep(x, z, x[1..] + DashRuns(z));
      assert [x[0]] + (x[1..] + DashRuns(z)) == x + DashRuns(z);
    }
  }

  /** A whitespace run between a whitespace-free prefix and a part that does not start
      with whitespace becomes exactly one '-'. */
  lemma DashRunsReplacesRun(x: string, w: string, y: string)
    requires SpaceFree(x) && w != [] && AllSpace(w)
    requires y == [] || !IsSpace(y[0])
    ensures DashRuns(x + w + y) == x + "-" + DashRuns(y)
  {
    var t := DashRuns(y);
    DashRunsKeepsPrefix(x, w + y);
    DashRunsLeadingRun(w, y);
    Assoc(x, w, y);
    Assoc(x, "-", t);
  }

  lemma Assoc(a: string, b: string, c: string)
    ensures a + b + c == a + (b + c)
  {
  }

  /** A first character that is not whitespace is kept in front. */
  lemma DashRunsPrefixStep(x: string, z: string, tail: string)
    requires x != [] && !IsSpace(x[0])
    requires DashRuns(x[1..] + z) == tail
    ensures DashRuns(x + z) == [x[0]] + tail
  {
    var s := x + z;
    assert s[0] == x[0];
    assert s[1..] == x[1..] + z;
    DashRunsHead(s);
  }

  /** One unfolding of `DashRuns` at a character that is not whitespace. */
  lemma DashRunsHead(s: string)
    requires s != [] && !IsSpace(s[0])
    ensures DashRuns(s) == [s[0]] + DashRuns(s[1..])
  {
  }

  /** One unfolding of `DashRuns` at a whitespace character. */
  lemma DashRunsSpaceHead(s: string)
    requires s != [] && IsSpace(s[0])
    ensures DashRuns(s) == "-" + DashRuns(DropSpaces(s[1..]))
  {
  }

  lemma DashRunsLeadingRun(w: string, y: string)
    requires w != [] && AllSpace(w)
    requires y == [] || !IsSpace(y[0])
    ensures DashRuns(w + y) == "-" + DashRuns(y)
  {
    var s := w + y;
    assert s[0] == w[0];
    assert s[1..] == w[1..] + y;
    AllSpaceTail(w);
    DropSpacesRun(w[1..], y);
  }

  lemma {:induction false} DropSpacesRun(w: string, y: string)
    requires AllSpace(w)
    requires y == [] || !IsSpace(y[0])
    ensures DropSpaces(w + y) == y
    decreases |w|
  {
    if w != [] {
      assert (w + y)[1..] == w[1..] + y;
      AllSpaceTail(w);
      DropSpacesRun(w[1..], y);
    } else {
      assert w + y == y;
    }
  }

  /** Lower-casing twice is lower-casing once. */
  lemma LowerIdempotent(s: string)
    ensures Lower(Lower(s)) == Lower(s)
  {
  }

  /** A slug is its own slug. */
  lemma SlugIdempotent(s: string)
    ensures Slug(Slug(s)) == Slug(s)
  {
    var r := Slug(s);
    var l := Lower(s);
    LowerDashRuns(l);
    LowerIdempotent(s);
    DashRunsSpaceFree(r);
  }

  /** Replacing whitespace after lower-casing leaves a lower-cased string. */
  lemma {:induction false} LowerDashRuns(s: string)
    requires Lower(s) == s
    ensures Lower(DashRuns(s)) == DashRuns(s)
    decreases |s|
  {
    if s != [] {
      if IsSpace(s[0]) {
        var t := DropSpaces(s[1..]);
        var d := DashRuns(t);
        DashRunsSpaceHead(s);
        LowerSuffix(s, 1);
        LowerSuffix(s[1..], |s[1..]| - |t|);
        LowerDashRuns(t);
        LowerAppend("-", d);
        assert Lower("-") == "-";
      } else {
        var d := DashRuns(s[1..]);
        DashRunsHead(s);
        LowerSuffix(s, 1);
        LowerDashRuns(s[1..]);
        LowerAppend([s[0]], d);
        assert Lower([s[0]]) == [s[0]];
      }
    }
  }

  /** A suffix of a lower-cased string is lower-cased. */
  lemma LowerSuffix(s: string, k: nat)
    requires Lower(s) == s && k <= |s|
    ensures Lower(s[k..]) == s[k..]
  {
    forall i | 0 <= i < |s[k..]| ensures LowerChar(s[k..][i]) == s[k..][i] {
      assert s[k..][i] == s[k + i];
    }
  }

  /** Lower-casing works character by character, so it distributes over concatenation. */
  lemma LowerAppend(a: string, b: string)
    ensures Lower(a + b) == Lower(a) + Lower(b)
  {
  }

  lemma LowerSpaceFree(s: string)
    requires SpaceFree(s)
    ensures SpaceFree(Lower(s))
  {
  }

  /** A one-word label's slug is the label lower-cased. */
  lemma SlugOfWord(a: string)
    requires SpaceFree(a)
    ensures Slug(a) == Lower(a)
  {
    LowerSpaceFree(a);
    DashRunsSpaceFree(Lower(a));
  }

  /** Two words with one space between them are joined by '-'. */
  lemma SlugOfTwoWords(a: string, b: string)
    requires SpaceFree(a) && SpaceFree(b)
    ensures Slug(a + " " + b) == Lower(a) + "-" + Lower(b)
  {
    LowerAppend(a + " ", b);
    LowerAppend(a, " ");
    assert Lower(" ") == " ";
    assert Lower(a + " " + b) == Lower(a) + " " + Lower(b);
    LowerSpaceFree(a);
    LowerSpaceFree(b);
    DashRunsSpaceFree(Lower(b));
    assert AllSpace(" ");
    assert Lower(b) == [] || !IsSpace(Lower(b)[0]);
    DashRunsReplacesRun(Lower(a), " ", Lower(b));
  }
}
