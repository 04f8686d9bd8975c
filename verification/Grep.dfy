/** The matcher of user/grep.c (operators ^ . * $), proved sound and complete for an independent semantics:
    a pattern is a list of items, each item has a language of strings, and the pattern's language is their
    concatenation.  C strings are sequences without NUL; `text + 1` is `text[1..]`. */
module Grep {

  type CString = s: string | '\0' !in s

  // ---------- The meaning of a pattern ----------

  datatype Item = One(c: char) | Star(c: char)

  /** A pattern after its optional leading `^`: the items, and whether a final `$` pins the end. */
  datatype Pattern = Pattern(items: seq<Item>, toEnd: bool)

  predicate Covers(c: char, x: char) { c == '.' || c == x }

  ghost predicate ItemLanguage(it: Item, w: string) {
    match it
    case One(c) => |w| == 1 && Covers(c, w[0])
    case Star(c) => forall i :: 0 <= i < |w| ==> Covers(c, w[i])
  }

  /** `w` splits into consecutive pieces, the k-th in the language of the k-th item. */
  ghost predicate InLanguage(items: seq<Item>, w: string) {
    if items == [] then w == []
    else exists k :: 0 <= k <= |w| && ItemLanguage(items[0], w[..k]) && InLanguage(items[1..], w[k..])
  }

  function Parse(re: string): (p: Pattern) {
    if re == "" then Pattern([], false)
    else if |re| >= 2 && re[1] == '*' then
      var p := Parse(re[2..]); Pattern([Star(re[0])] + p.items, p.toEnd)
    else if re == "$" then Pattern([], true)
    else
      var p := Parse(re[1..]); Pattern([One(re[0])] + p.items, p.toEnd)
  }

  /** `text[i..j]` is an occurrence of the pattern. */
  ghost predicate Occurs(p: Pattern, text: string, i: int, j: int) {
    0 <= i <= j <= |text| && (p.toEnd ==> j == |text|) && InLanguage(p.items, text[i..j])
  }

  /** Some substring of the text matches, starting at 0 if the pattern begins with `^`. */
  ghost predicate Matches(re: string, text: string) {
    if re != "" && re[0] == '^' then exists j :: Occurs(Parse(re[1..]), text, 0, j)
    else exists i, j :: Occurs(Parse(re), text, i, j)
  }

  ghost predicate Here(p: Pattern, text: string) { exists j :: Occurs(p, text, 0, j) }

  // ---------- How the first item of a pattern is consumed ----------

  lemma HereEmpty(toEnd: bool, text: string)
    ensures Here(Pattern([], toEnd), text) <==> (toEnd ==> text == "")
  {
    if toEnd ==> text == "" { assert Occurs(Pattern([], toEnd), text, 0, 0); }
  }

  lemma HereOne(c: char, p: Pattern, text: string)
    ensures Here(Pattern([One(c)] + p.items, p.toEnd), text)
       <==> (text != "" && Covers(c, text[0]) && Here(p, text[1..]))
  {
    var q := Pattern([One(c)] + p.items, p.toEnd);
    assert q.items[1..] == p.items;
    if Here(q, text) {
      var j :| Occurs(q, text, 0, j);
      var w := text[0..j];
      var k :| 0 <= k <= |w| && ItemLanguage(q.items[0], w[..k]) && InLanguage(q.items[1..], w[k..]);
      assert k == 1 && w[..k][0] == text[0];
      assert w[1..] == text[1..][0..j-1];
      assert Occurs(p, text[1..], 0, j - 1);
    }
    if text != "" && Covers(c, text[0]) && Here(p, text[1..]) {
      var j :| Occurs(p, text[1..], 0, j);
      var w := text[0..j+1];
      assert w[1..] == text[1..][0..j];
      assert ItemLanguage(q.items[0], w[..1]);
      assert Occurs(q, text, 0, j + 1);
    }
  }

  /** A starred item may take any run of covered characters. */
  ghost predicate StarThenHere(c: char, p: Pattern, text: string, k: int) {
    0 <= k <= |text| && ItemLanguage(Star(c), text[..k]) && Here(p, text[k..])
  }

  ghost predicate StarHere(c: char, p: Pattern, text: string) { exists k :: StarThenHere(c, p, text, k) }

  lemma HereStar(c: char, p: Pattern, text: string)
    ensures Here(Pattern([Star(c)] + p.items, p.toEnd), text) <==> StarHere(c, p, text)
  {
    var q := Pattern([Star(c)] + p.items, p.toEnd);
    assert q.items[1..] == p.items;
    if Here(q, text) {
      var j :| Occurs(q, text, 0, j);
      var w := text[0..j];
      var k :| 0 <= k <= |w| && ItemLanguage(q.items[0], w[..k]) && InLanguage(q.items[1..], w[k..]);
      assert w[..k] == text[..k] && w[k..] == text[k..][0..j-k];
      assert Occurs(p, text[k..], 0, j - k);
      assert StarThenHere(c, p, text, k);
    }
    if k :| StarThenHere(c, p, text, k) {
      var j :| Occurs(p, text[k..], 0, j);
      var w := text[0..k+j];
      assert w[..k] == text[..k] && w[k..] == text[k..][0..j];
      assert Occurs(q, text, 0, k + j);
    }
  }

  // ---------- The program ----------

  function At(s: string, i: nat): (c: char)
    requires i <= |s|
  { if i < |s| then s[i] else '\0' }

  method MatchHere(re: CString, text: CString) returns (found: bool)
    ensures found <==> Here(Parse(re), text)
    decreases |re|, 0
  {
    if At(re, 0) == '\0' {
      HereEmpty(false, text);
      return true;
    }
    if At(re, 1) == '*' {
      var p := Parse(re[2..]);
      assert Parse(re) == Pattern([Star(re[0])] + p.items, p.toEnd);
      HereStar(re[0], p, text);
      found := MatchStar(re[0], re[2..], text);
      return;
    }
    if At(re, 0) == '$' && At(re, 1) == '\0' {
      assert re == "$";
      HereEmpty(true, text);
      return At(text, 0) == '\0';
    }
    HereOne(re[0], Parse(re[1..]), text);
    if At(text, 0) != '\0' && (re[0] == '.' || re[0] == At(text, 0)) {
      found := MatchHere(re[1..], text[1..]);
      return;
    }
    return false;
  }

  /** Shortest run first; no longer run is missed. */
  method MatchStar(c: char, re: CString, text: CString) returns (found: bool)
    ensures found <==> StarHere(c, Parse(re), text)
    decreases |re|, 1
  {
    var k := 0;
    while true
      invariant 0 <= k <= |text|
      invariant ItemLanguage(Star(c), text[..k])
      invariant forall i :: 0 <= i < k ==> !StarThenHere(c, Parse(re), text, i)
      decreases |text| - k
    {
      found := MatchHere(re, text[k..]);
      if found {
        assert StarThenHere(c, Parse(re), text, k);
        return true;
      }
      if At(text, k) == '\0' { break; }
      var x := text[k];
      if !(x == c || c == '.') {
        assert forall i :: k < i <= |text| ==> text[..i][k] == x;
        break;
      }
      k := k + 1;
    }
    return false;
  }

  method Match(re: CString, text: CString) returns (found: bool)
    ensures found <==> Matches(re, text)
  {
    if At(re, 0) == '^' {
      found := MatchHere(re[1..], text);
      return;
    }
    var i := 0;
    while true
      invariant 0 <= i <= |text|
      invariant forall i', j :: 0 <= i' < i ==> !Occurs(Parse(re), text, i', j)
      decreases |text| - i
    {
      found := MatchHere(re, text[i..]);
      OccursShift(Parse(re), text, i);
      if found { return true; }
      if At(text, i) == '\0' { return false; }
      i := i + 1;
    }
  }

  lemma OccursShift(p: Pattern, text: string, i: nat)
    requires i <= |text|
    ensures Here(p, text[i..]) <==> exists j :: Occurs(p, text, i, j)
  {
    if j :| Occurs(p, text[i..], 0, j) {
      assert text[i..][0..j] == text[i..i+j];
      assert Occurs(p, text, i, i + j);
    }
    if j :| Occurs(p, text, i, j) {
      assert text[i..][0..j-i] == text[i..j];
      assert Occurs(p, text[i..], 0, j - i);
    }
  }
}
