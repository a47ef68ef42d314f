/** Go's `strings.Fields` and `strings.TrimSpace`, as the chunker uses them. */
module Text {

  /** The code points of Go's `unicode.IsSpace`. */
  predicate IsSpace(c: char) {
    var u := c as int;
    || u == 0x20 || 0x09 <= u <= 0x0D || u == 0x85 || u == 0xA0 || u == 0x1680 || 0x2000 <= u <= 0x200A
    || u == 0x2028 || u == 0x2029 || u == 0x202F || u == 0x205F || u == 0x3000
  }

  /** The length of the longest prefix of s without white space. */
  function WordLength(s: string): (n: nat)
    ensures n <= |s|
    ensures forall i :: 0 <= i < n ==> !IsSpace(s[i])
    ensures n < |s| ==> IsSpace(s[n])
  {
    if s == "" || IsSpace(s[0]) then 0 else 1 + WordLength(s[1..])
  }

  /** The white-space separated words of s, in order. */
  function Fields(s: string): seq<string> {
    if s == "" then []
    else if IsSpace(s[0]) then Fields(s[1..])
    else [s[..WordLength(s)]] + Fields(s[WordLength(s)..])
  }

  function TrimLeft(s: string): string {
    if s == "" || !IsSpace(s[0]) then s else TrimLeft(s[1..])
  }

  function TrimRight(s: string): string {
    if s == "" || !IsSpace(s[|s| - 1]) then s else TrimRight(s[..|s| - 1])
  }

  function TrimSpace(s: string): string {
    TrimRight(TrimLeft(s))
  }

  lemma {:induction false} WordLengthAppend(a: string, c: char, b: string)
    requires IsSpace(c)
    ensures WordLength(a + [c] + b) == WordLength(a)
  {
    var s := a + [c] + b;
    if a == "" {
      assert s[0] == c;
    } else if !IsSpace(a[0]) {
      assert s[1..] == a[1..] + [c] + b;
      WordLengthAppend(a[1..], c, b);
    }
  }

  /** A white-space character separates words wherever it stands. */
  lemma {:induction false} FieldsSplit(a: string, c: char, b: string)
    requires IsSpace(c)
    ensures Fields(a + [c] + b) == Fields(a) + Fields(b)
    decreases |a|
  {
    var s := a + [c] + b;
    if a == "" {
      assert s[0] == c && s[1..] == b;
    } else if IsSpace(a[0]) {
      assert s[1..] == a[1..] + [c] + b;
      FieldsSplit(a[1..], c, b);
    } else {
      var k := WordLength(a);
      WordLengthAppend(a, c, b);
      FieldsSplit(a[k..], c, b);
      assert s[..k] == a[..k] && s[k..] == a[k..] + [c] + b;
      assert Fields(s) == [s[..k]] + Fields(s[k..]);
      assert Fields(a) == [a[..k]] + Fields(a[k..]);
    }
  }

  lemma {:induction false} FieldsTrimLeft(s: string)
    ensures Fields(TrimLeft(s)) == Fields(s)
  {
    if s != "" && IsSpace(s[0]) {
      FieldsTrimLeft(s[1..]);
    }
  }

  lemma {:induction false} FieldsTrimRight(s: string)
    ensures Fields(TrimRight(s)) == Fields(s)
    decreases |s|
  {
    if s != "" && IsSpace(s[|s| - 1]) {
      var t := s[..|s| - 1];
      FieldsSplit(t, s[|s| - 1], "");
      assert t + [s[|s| - 1]] + "" == s;
      FieldsTrimRight(t);
    }
  }

  /** Trimming drops no word. */
  lemma {:induction false} FieldsTrimSpace(s: string)
    ensures Fields(TrimSpace(s)) == Fields(s)
  {
    FieldsTrimLeft(s);
    FieldsTrimRight(TrimLeft(s));
  }

  /** A word is its own only field: with FieldsSplit this determines the fields of every text. */
  lemma {:induction false} FieldsOfWord(w: string)
    requires w != "" && forall i :: 0 <= i < |w| ==> !IsSpace(w[i])
    ensures Fields(w) == [w]
  {
    assert WordLength(w) == |w|;
    assert w[..|w|] == w && w[|w|..] == "";
  }

  lemma {:induction false} TrimLeftAt(s: string) returns (k: nat)
    ensures k <= |s| && TrimLeft(s) == s[k..] && (k < |s| ==> !IsSpace(s[k]))
    ensures forall i :: 0 <= i < k ==> IsSpace(s[i])
  {
    if s == "" || !IsSpace(s[0]) {
      k := 0;
    } else {
      k := TrimLeftAt(s[1..]);
      k := k + 1;
    }
  }

  lemma {:induction false} TrimRightAt(s: string) returns (k: nat)
    ensures k <= |s| && TrimRight(s) == s[..k] && (k > 0 ==> !IsSpace(s[k-1]))
    ensures forall i :: k <= i < |s| ==> IsSpace(s[i])
    decreases |s|
  {
    if s == "" || !IsSpace(s[|s| - 1]) {
      k := |s|;
      assert s[..k] == s;
    } else {
      k := TrimRightAt(s[..|s| - 1]);
      assert s[..|s| - 1][..k] == s[..k];
    }
  }

  /** Trimming cuts the white space at both ends, all of it, and nothing else. */
  lemma {:induction false} TrimSpaceCuts(s: string) returns (lo: nat, hi: nat)
    ensures lo <= hi <= |s| && TrimSpace(s) == s[lo..hi]
    ensures forall i :: 0 <= i < lo || hi <= i < |s| ==> IsSpace(s[i])
    ensures lo < hi ==> !IsSpace(s[lo]) && !IsSpace(s[hi-1])
  {
    lo := TrimLeftAt(s);
    var k := TrimRightAt(s[lo..]);
    hi := lo + k;
    assert s[lo..][..k] == s[lo..hi];
    assert forall i :: hi <= i < |s| ==> s[i] == s[lo..][i - lo];
    assert lo < hi ==> s[hi-1] == s[lo..][k-1];
  }
}
