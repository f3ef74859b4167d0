/** The few pieces of the JavaScript runtime that the pages' arithmetic and
    validation depend on: dynamic values with their truthiness, the number
    readers (taken as parameters), and the string operations the pages use
    (trim, split on one character, includes, toLowerCase, ordering). */
module Js {

  datatype Option<T> = None | Some(value: T)

  /** The number readers of the runtime. None stands for NaN.
      parseFloat reads a leading decimal; toNumber is Number(s), the
      implicit coercion of `*`, `/` and isNaN; parseInt reads an integer.
      toKey is String(v), the property name a non-string value becomes when
      it is used as a dictionary key. */
  datatype Runtime = Runtime(
    parseFloat: string -> Option<real>,
    toNumber: string -> Option<real>,
    parseInt: string -> int,
    toKey: Value -> string)

  /** A dynamically typed field value. Fixed(x) is the string that toFixed(2)
      produced for the finite number x; FixedNonFinite is the string it gives
      for NaN or an infinity ("NaN", "Infinity", "-Infinity"); Ref(path) is a
      document reference such as shared_materials/<id>. */
  datatype Value =
    | Str(s: string)
    | Num(x: real)
    | NaN
    | Fixed(x: real)
    | FixedNonFinite
    | Bool(b: bool)
    | Ref(path: string)
    | Null
    | Undefined

  /** JavaScript truthiness. A non-empty string is truthy, so every toFixed
      result is, even "0.00". */
  predicate Truthy(v: Value) {
    match v
    case Str(s) => s != ""
    case Num(x) => x != 0.0
    case NaN => false
    case Fixed(_) => true
    case FixedNonFinite => true
    case Bool(b) => b
    case Ref(_) => true
    case Null => false
    case Undefined => false
  }

  /** parseFloat(v): reads numbers and numeric strings; every other value is NaN. */
  function ParseFloat(rt: Runtime, v: Value): Option<real> {
    match v
    case Str(s) => rt.parseFloat(s)
    case Num(x) => Some(x)
    case Fixed(x) => Some(x)
    case _ => None
  }

  /** `parseFloat(v) || 0`: NaN (and 0) fall back to 0. */
  function NumOr0(rt: Runtime, v: Value): (r: real)
    ensures ParseFloat(rt, v).None? ==> r == 0.0
    ensures ParseFloat(rt, v).Some? ==> r == ParseFloat(rt, v).value
  {
    match ParseFloat(rt, v)
    case Some(x) => x
    case None => 0.0
  }

  /** A number read by parseFloat, as a value: NaN when unreadable. */
  function FloatValue(x: Option<real>): (v: Value)
    ensures Truthy(v) <==> x.Some? && x.value != 0.0
  {
    match x
    case Some(y) => Num(y)
    case None => NaN
  }

  /** `a === b` on numbers, null and plain strings: NaN equals nothing. */
  predicate StrictEq(a: Value, b: Value) {
    a == b && !a.NaN?
  }

  /** Number(v), the coercion applied by arithmetic operators. */
  function ToNumber(rt: Runtime, v: Value): Option<real> {
    match v
    case Str(s) => if Trim(s) == "" then Some(0.0) else rt.toNumber(s)
    case Num(x) => Some(x)
    case Fixed(x) => Some(x)
    case Bool(b) => Some(if b then 1.0 else 0.0)
    case Null => Some(0.0)
    case _ => None
  }

  /** The property name of a value used as a dictionary key. */
  function PropertyKey(rt: Runtime, v: Value): (k: string)
    ensures v.Str? ==> k == v.s
  {
    if v.Str? then v.s else rt.toKey(v)
  }

  /** z / y == x when z == x * y. */
  lemma DivOfProduct(x: real, y: real, z: real)
    requires y != 0.0 && z == x * y
    ensures z / y == x
  {
  }

  // ---------------------------------------------------------------------
  // Strings

  /** The characters String.prototype.trim removes: WhiteSpace and LineTerminator. */
  predicate IsSpace(c: char) {
    || c == ' ' || c == '\t' || c == '\n' || c == '\r'
    || c == '\U{000B}' || c == '\U{000C}' || c == '\U{00A0}' || c == '\U{1680}'
    || ('\U{2000}' <= c <= '\U{200A}')
    || c == '\U{2028}' || c == '\U{2029}' || c == '\U{202F}' || c == '\U{205F}'
    || c == '\U{3000}' || c == '\U{FEFF}'
  }

  function TrimStart(s: string): (r: string)
    ensures |r| <= |s| && r == s[|s| - |r|..]
    ensures r != [] ==> !IsSpace(r[0])
    ensures forall i {:trigger IsSpace(s[i])} :: 0 <= i < |s| - |r| ==> IsSpace(s[i])
  {
    if s != [] && IsSpace(s[0]) then
      var r := TrimStart(s[1..]);
      assert forall i :: 1 <= i < |s| - |r| ==> s[i] == s[1..][i - 1];
      r
    else s
  }

  function TrimEnd(s: string): (r: string)
    ensures |r| <= |s| && r == s[..|r|]
    ensures r != [] ==> !IsSpace(r[|r| - 1])
    ensures forall i {:trigger IsSpace(s[i])} :: |r| <= i < |s| ==> IsSpace(s[i])
  {
    if s != [] && IsSpace(s[|s| - 1]) then
      var r := TrimEnd(s[..|s| - 1]);
      assert forall i :: |r| <= i < |s| - 1 ==> s[i] == s[..|s| - 1][i];
      r
    else s
  }

  /** String.prototype.trim. */
  function Trim(s: string): string {
    TrimEnd(TrimStart(s))
  }

  /** No leading or trailing white space. */
  predicate Trimmed(s: string) {
    s == [] || (!IsSpace(s[0]) && !IsSpace(s[|s| - 1]))
  }

  /** trim() removes exactly the white space around the text: the result is
      the slice of the input that starts after the leading white space, it
      has no white space at either end, and it is empty exactly when the input
      is all white space. */
  lemma TrimSpec(s: string)
    ensures Trimmed(Trim(s))
    ensures OccursAt(s, Trim(s), |s| - |TrimStart(s)|)
    ensures Trim(s) == "" <==> forall i :: 0 <= i < |s| ==> IsSpace(s[i])
  {
    TrimEnds(s);
    TrimPosition(s);
    TrimEmpty(s);
  }

  lemma TrimPosition(s: string)
    ensures OccursAt(s, Trim(s), |s| - |TrimStart(s)|)
  {
    var t := TrimStart(s);
    var k := |s| - |t|;
    var r := TrimEnd(t);
    SliceOfSlice(s, k, |r|);
  }

  lemma SliceOfSlice<T>(s: seq<T>, k: nat, n: nat)
    requires k + n <= |s|
    ensures s[k..][..n] == s[k..k + n]
  {
  }

  lemma TrimEmpty(s: string)
    ensures Trim(s) == "" <==> forall i :: 0 <= i < |s| ==> IsSpace(s[i])
  {
    var t := TrimStart(s);
    var r := TrimEnd(t);
    var k := |s| - |t|;
    if r == "" {
      TrimAllSpace(s, t, k);
    } else {
      assert t == s[k..];
      assert s[k] == t[0];
      assert !IsSpace(t[0]);
    }
  }

  /** The ends of the trimmed text are not white space. */
  lemma TrimEnds(s: string)
    ensures Trimmed(Trim(s))
  {
    var t := TrimStart(s);
    var r := TrimEnd(t);
    if r != [] {
      assert r[0] == t[0];
      assert !IsSpace(t[0]);
      assert !IsSpace(r[|r| - 1]);
    }
  }

  lemma TrimAllSpace(s: string, t: string, k: nat)
    requires k <= |s| && t == s[k..]
    requires forall i :: 0 <= i < k ==> IsSpace(s[i])
    requires forall i :: 0 <= i < |t| ==> IsSpace(t[i])
    ensures forall i :: 0 <= i < |s| ==> IsSpace(s[i])
  {
    forall i | k <= i < |s| ensures IsSpace(s[i]) {
      assert s[i] == t[i - k];
    }
  }

  /** Trimming a trimmed string changes nothing. */
  lemma TrimTrimmed(s: string)
    requires Trimmed(s)
    ensures Trim(s) == s
  {
  }

  /** sub occurs in s at position i. */
  predicate OccursAt(s: string, sub: string, i: int) {
    0 <= i <= |s| - |sub| && s[i..i + |sub|] == sub
  }

  /** Position of the first occurrence of c in s. */
  function IndexOfChar(s: string, c: char): (i: nat)
    requires c in s
    ensures i < |s| && s[i] == c && c !in s[..i]
  {
    if s[0] == c then 0 else 1 + IndexOfChar(s[1..], c)
  }

  /** s.split(c) for a one-character separator. */
  function Split(s: string, c: char): (parts: seq<string>)
    ensures |parts| >= 1
    ensures forall p :: p in parts ==> c !in p
    decreases |s|
  {
    if c !in s then [s]
    else
      var i := IndexOfChar(s, c);
      [s[..i]] + Split(s[i + 1..], c)
  }

  /** Number of occurrences of c in s. */
  function Occurrences(s: string, c: char): nat {
    if s == [] then 0 else (if s[0] == c then 1 else 0) + Occurrences(s[1..], c)
  }

  function Join(parts: seq<string>, c: char): string
    requires |parts| >= 1
  {
    if |parts| == 1 then parts[0] else parts[0] + [c] + Join(parts[1..], c)
  }

  lemma OccurrencesConcat(a: string, b: string, c: char)
    ensures Occurrences(a + b, c) == Occurrences(a, c) + Occurrences(b, c)
  {
    if a != [] {
      assert (a + b)[0] == a[0];
      assert (a + b)[1..] == a[1..] + b;
      OccurrencesConcat(a[1..], b, c);
    } else {
      assert a + b == b;
    }
  }

  lemma OccurrencesNone(s: string, c: char)
    ensures c !in s <==> Occurrences(s, c) == 0
  {
    if s != [] {
      OccurrencesNone(s[1..], c);
      assert s == [s[0]] + s[1..];
    }
  }

  lemma OccurrencesOfCut(s: string, c: char, i: nat)
    requires i < |s| && s[i] == c && c !in s[..i]
    ensures Occurrences(s, c) == Occurrences(s[i + 1..], c) + 1
  {
    assert s == s[..i] + ([c] + s[i + 1..]);
    OccurrencesConcat(s[..i], [c] + s[i + 1..], c);
    OccurrencesConcat([c], s[i + 1..], c);
    OccurrencesNone(s[..i], c);
    assert Occurrences([c], c) == 1;
  }

  /** split(c) cuts s at every c: joining the parts with c gives s back, and
      there is one more part than there are separators. */
  lemma {:induction false} SplitSpec(s: string, c: char)
    ensures Join(Split(s, c), c) == s
    ensures |Split(s, c)| == Occurrences(s, c) + 1
    decreases |s|
  {
    OccurrencesNone(s, c);
    if c in s {
      var i := IndexOfChar(s, c);
      var rest := Split(s[i + 1..], c);
      SplitSpec(s[i + 1..], c);
      OccurrencesOfCut(s, c, i);
      var parts := Split(s, c);
      assert parts == [s[..i]] + rest;
      assert parts[1..] == rest;
      assert Join(parts, c) == s[..i] + [c] + Join(rest, c);
      assert s == s[..i] + [c] + s[i + 1..];
    }
  }

  /** s.includes(sub). */
  predicate Includes(s: string, sub: string) {
    sub <= s || (s != [] && Includes(s[1..], sub))
  }

  lemma PrefixOccurs(s: string, sub: string)
    ensures OccursAt(s, sub, 0) <==> sub <= s
  {
    if |sub| <= |s| {
      assert s[0..0 + |sub|] == s[..|sub|];
    }
  }

  /** includes holds exactly when sub occurs at some position of s. */
  lemma {:induction false} IncludesSpec(s: string, sub: string)
    ensures Includes(s, sub) <==> exists i :: OccursAt(s, sub, i)
  {
    if sub <= s {
      assert OccursAt(s, sub, 0);
    } else if s != [] {
      IncludesSpec(s[1..], sub);
      if Includes(s[1..], sub) {
        var i :| OccursAt(s[1..], sub, i);
        assert s[1..][i..i + |sub|] == s[i + 1..i + 1 + |sub|];
        assert OccursAt(s, sub, i + 1);
      }
      if exists i :: OccursAt(s, sub, i) {
        var i :| OccursAt(s, sub, i);
        PrefixOccurs(s, sub);
        assert i != 0;
        assert s[1..][i - 1..i - 1 + |sub|] == s[i..i + |sub|];
        assert OccursAt(s[1..], sub, i - 1);
      }
    } else {
      assert |sub| > 0;
      assert forall i :: !OccursAt(s, sub, i);
    }
  }

  /** Every string includes the empty string. */
  lemma IncludesEmpty(s: string)
    ensures Includes(s, "")
  {
  }

  function LowerChar(c: char): (d: char)
    ensures !('A' <= d <= 'Z')
  {
    if 'A' <= c <= 'Z' then (c as int - 'A' as int + 'a' as int) as char else c
  }

  /** toLowerCase, on the ASCII letters. */
  function Lower(s: string): (r: string)
    ensures |r| == |s|
    ensures forall i :: 0 <= i < |s| ==> r[i] == LowerChar(s[i])
  {
    if s == [] then [] else [LowerChar(s[0])] + Lower(s[1..])
  }

  // ---------------------------------------------------------------------
  // String order: code-point lexicographic order, standing for localeCompare

  predicate LexLe(a: string, b: string) {
    a == [] || (b != [] && (a[0] < b[0] || (a[0] == b[0] && LexLe(a[1..], b[1..]))))
  }

  predicate LexLt(a: string, b: string) {
    LexLe(a, b) && a != b
  }

  lemma LexLeRefl(a: string)
    ensures LexLe(a, a)
  {
  }

  lemma LexLeTotal(a: string, b: string)
    ensures LexLe(a, b) || LexLe(b, a)
  {
  }

  lemma {:induction false} LexLeAntisym(a: string, b: string)
    requires LexLe(a, b) && LexLe(b, a)
    ensures a == b
  {
    if a != [] && b != [] {
      LexLeAntisym(a[1..], b[1..]);
      assert a == [a[0]] + a[1..];
      assert b == [b[0]] + b[1..];
    }
  }

  lemma {:induction false} LexLeTrans(a: string, b: string, c: string)
    requires LexLe(a, b) && LexLe(b, c)
    ensures LexLe(a, c)
  {
    if a != [] && b != [] && c != [] && a[0] == b[0] && b[0] == c[0] {
      LexLeTrans(a[1..], b[1..], c[1..]);
    }
  }
}
