/** Shared vocabulary: optional values, JavaScript string helpers, prefix counting. */
module Common {

  /** `null`/`undefined` versus a present value. */
  datatype Option<+T> = None | Some(value: T)

  /** The characters of JavaScript's `\s` class; `String.prototype.trim` strips exactly these. */
  predicate IsJsSpace(c: char) {
    || c == ' ' || c == '\t' || c == '\n' || c == '\r' || c == '\U{B}' || c == '\U{C}'
    || c == '\U{A0}' || c == '\U{1680}' || ('\U{2000}' <= c <= '\U{200A}')
    || c == '\U{2028}' || c == '\U{2029}' || c == '\U{202F}' || c == '\U{205F}'
    || c == '\U{3000}' || c == '\U{FEFF}'
  }

  /** `s.trimStart()` */
  function TrimStart(s: string): (r: string)
    ensures |r| <= |s|
  {
    if |s| > 0 && IsJsSpace(s[0]) then TrimStart(s[1..]) else s
  }

  /** `s.trimEnd()` */
  function TrimEnd(s: string): (r: string)
    ensures |r| <= |s|
  {
    if |s| > 0 && IsJsSpace(s[|s| - 1]) then TrimEnd(s[..|s| - 1]) else s
  }

  /** `s.trim()` */
  function Trim(s: string): (r: string)
    ensures |r| <= |s|
  {
    TrimEnd(TrimStart(s))
  }

  /** `trimStart` drops exactly the leading white space: a suffix is left that does not start with it. */
  lemma {:induction false} TrimStartEspec(s: string)
    ensures var r := TrimStart(s);
      && r == s[|s| - |r|..]
      && (|r| > 0 ==> !IsJsSpace(r[0]))
      && (forall i :: 0 <= i < |s| - |r| ==> IsJsSpace(s[i]))
    decreases |s|
  {
    if |s| > 0 && IsJsSpace(s[0]) {
      TrimStartEspec(s[1..]);
      var r := TrimStart(s[1..]);
      assert s[1..][|s| - 1 - |r|..] == s[|s| - |r|..];
      forall i | 0 <= i < |s| - |r| ensures IsJsSpace(s[i]) {
        if i > 0 { assert s[i] == s[1..][i - 1]; }
      }
    }
  }

  /** `trimEnd` drops exactly the trailing white space: a prefix is left that does not end with it. */
  lemma {:induction false} TrimEndEspec(s: string)
    ensures var r := TrimEnd(s);
      && r == s[..|r|]
      && (|r| > 0 ==> !IsJsSpace(r[|r| - 1]))
      && (forall i :: |r| <= i < |s| ==> IsJsSpace(s[i]))
    decreases |s|
  {
    if |s| > 0 && IsJsSpace(s[|s| - 1]) {
      var p := s[..|s| - 1];
      TrimEndEspec(p);
      var r := TrimEnd(p);
      assert p[..|r|] == s[..|r|];
      forall i | |r| <= i < |s| ensures IsJsSpace(s[i]) {
        if i < |s| - 1 { assert s[i] == p[i]; }
      }
    }
  }

  /**
   * `trim` leaves the longest infix that neither starts nor ends with white space, made only
   * of characters of the input, and leaves a text without white space unchanged.
   */
  lemma TrimEspec(s: string)
    ensures var r := Trim(s);
      && (|r| > 0 ==> !IsJsSpace(r[0]) && !IsJsSpace(r[|r| - 1]))
      && (forall c :: c in r ==> c in s)
      && ((forall i :: 0 <= i < |s| ==> !IsJsSpace(s[i])) ==> r == s)
  {
    var t := TrimStart(s);
    var r := TrimEnd(t);
    TrimStartEspec(s);
    TrimEndEspec(t);
    assert forall k :: 0 <= k < |r| ==> r[k] == s[|s| - |t| + k];
    if |r| > 0 {
      assert r[0] == t[0];
    }
    if forall i :: 0 <= i < |s| ==> !IsJsSpace(s[i]) {
      assert |t| == |s|;
      assert t == s;
      assert forall i :: 0 <= i < |t| ==> !IsJsSpace(t[i]);
    }
  }

  /** Trimming twice is trimming once. */
  lemma TrimIdempotente(s: string)
    ensures Trim(Trim(s)) == Trim(s)
  {
    var r := Trim(s);
    TrimEspec(s);
    if |r| > 0 {
      assert TrimStart(r) == r;
      assert TrimEnd(r) == r;
    }
  }

  /** `parts.join(sep)` */
  function Join(parts: seq<string>, sep: string): (r: string)
    ensures |parts| == 1 ==> r == parts[0]
    ensures |parts| == 0 ==> r == ""
  {
    if |parts| == 0 then ""
    else if |parts| == 1 then parts[0]
    else parts[0] + sep + Join(parts[1..], sep)
  }

  /** Concatenation of a list of strings, as built by `+=` in a loop. */
  function Concat(parts: seq<string>): string {
    if |parts| == 0 then "" else parts[0] + Concat(parts[1..])
  }

  lemma {:induction false} ConcatAppend(a: seq<string>, b: seq<string>)
    ensures Concat(a + b) == Concat(a) + Concat(b)
  {
    if |a| == 0 {
      assert a + b == b;
    } else {
      assert (a + b)[1..] == a[1..] + b;
      ConcatAppend(a[1..], b);
    }
  }

  /** Joining two non-empty lists is joining each and putting one separator between them. */
  lemma {:induction false} JoinConcat(a: seq<string>, b: seq<string>, sep: string)
    requires |a| > 0 && |b| > 0
    ensures Join(a + b, sep) == Join(a, sep) + sep + Join(b, sep)
    decreases |a|
  {
    if |a| == 1 {
      assert (a + b)[1..] == b;
    } else {
      assert (a + b)[1..] == a[1..] + b;
      JoinConcat(a[1..], b, sep);
    }
  }

  /** Number of occurrences of `c` in `s`. */
  function Count(s: string, c: char): nat {
    if |s| == 0 then 0 else (if s[0] == c then 1 else 0) + Count(s[1..], c)
  }

  lemma {:induction false} CountConcat(a: string, b: string, c: char)
    ensures Count(a + b, c) == Count(a, c) + Count(b, c)
    decreases |a|
  {
    if |a| == 0 {
      assert a + b == b;
    } else {
      assert (a + b)[1..] == a[1..] + b;
      CountConcat(a[1..], b, c);
    }
  }

  /** A text without `c` has no occurrence of it. */
  lemma {:induction false} CountAusente(s: string, c: char)
    requires c !in s
    ensures Count(s, c) == 0
    decreases |s|
  {
    if |s| > 0 {
      assert c !in s[1..] by {
        forall i | 0 <= i < |s| - 1 ensures s[1..][i] != c {
          assert s[1..][i] == s[i + 1];
        }
      }
      CountAusente(s[1..], c);
    }
  }
}
