/** Values as the handlers receive them from a JSON request, and the few
    JavaScript string operations the core relies on. */
module Js {

  datatype Option<+T> = None | Some(value: T)

  datatype Result<+T> = Success(value: T) | Failure(error: string)

  /** A request field: absent (`undefined`), explicitly `null`, or given. */
  datatype Field<+T> = Undefined | Null | Given(value: T)

  /** `x == null` (loose equality) holds for both `undefined` and `null`. */
  predicate Nullish<T>(f: Field<T>) {
    !f.Given?
  }

  /** Truthiness of a string field: given and not the empty string. */
  predicate TruthyString(f: Field<string>) {
    f.Given? && f.value != ""
  }

  /** Truthiness of a number field: given and not zero (JSON has no NaN). */
  predicate TruthyNumber(f: Field<int>) {
    f.Given? && f.value != 0
  }

  /** Objects and arrays are truthy whenever they are given, even when empty. */
  predicate TruthyObject<T>(f: Field<T>) {
    f.Given?
  }

  /** An optional string that is absent or empty, which Mongoose's `required` validator rejects. */
  predicate Blank(s: Option<string>) {
    s.None? || s.value == ""
  }

  function OptionOf<T>(f: Field<T>): (r: Option<T>)
    ensures r.Some? <==> f.Given?
    ensures r.Some? ==> r.value == f.value
  {
    if f.Given? then Some(f.value) else None
  }

  /** The key's value when an update sets the key, the stored value otherwise. */
  function Or<T>(o: Option<T>, stored: T): (r: T)
    ensures r == (if o.Some? then o.value else stored)
  {
    if o.Some? then o.value else stored
  }

  /** `String.prototype.toLowerCase` on the ASCII letters. */
  function LowerChar(c: char): char {
    if 'A' <= c <= 'Z' then (c as int + 32) as char else c
  }

  predicate NoUpper(s: string) {
    forall i | 0 <= i < |s| :: !('A' <= s[i] <= 'Z')
  }

  lemma NoUpperSlice(s: string, i: int, j: int)
    requires 0 <= i <= j <= |s| && NoUpper(s)
    ensures NoUpper(s[i..j])
  {
    assert forall x | 0 <= x < j - i :: s[i..j][x] == s[i + x];
  }

  function Lower(s: string): (r: string)
    ensures |r| == |s|
    ensures forall i :: 0 <= i < |s| ==> r[i] == LowerChar(s[i])
    ensures NoUpper(r)
  {
    if s == [] then [] else [LowerChar(s[0])] + Lower(s[1..])
  }

  lemma {:induction false} LowerIdempotent(s: string)
    ensures Lower(Lower(s)) == Lower(s)
  {
    var l := Lower(s);
    var ll := Lower(l);
    assert |ll| == |l|;
    forall i | 0 <= i < |s| ensures ll[i] == l[i] {
      assert LowerChar(LowerChar(s[i])) == LowerChar(s[i]);
    }
  }

  /** `sub` occurs in `s` starting at index `i`. */
  predicate OccursAt(s: string, sub: string, i: int) {
    0 <= i && i + |sub| <= |s| && s[i..i + |sub|] == sub
  }

  /** `String.prototype.includes`. */
  predicate Includes(s: string, sub: string) {
    exists i | 0 <= i <= |s| - |sub| :: OccursAt(s, sub, i)
  }

  /** Every string includes the empty string, so an empty search term keeps everything. */
  lemma EmptyIncluded(s: string)
    ensures Includes(s, "")
  {
    assert OccursAt(s, "", 0);
  }

  /** `s` includes itself. */
  lemma SelfIncluded(s: string)
    ensures Includes(s, s)
  {
    assert s[0..|s|] == s;
    assert OccursAt(s, s, 0);
  }

  /** `Array.prototype.filter`: the elements that pass, in their original order. */
  function Filter<T>(s: seq<T>, keep: T -> bool): (r: seq<T>)
    ensures |r| <= |s|
    ensures forall i :: 0 <= i < |r| ==> r[i] in s && keep(r[i])
    ensures forall i :: 0 <= i < |s| && keep(s[i]) ==> s[i] in r
    ensures (forall i :: 0 <= i < |s| ==> keep(s[i])) ==> r == s
  {
    if s == [] then []
    else Filter(s[..|s| - 1], keep) + (if keep(s[|s| - 1]) then [s[|s| - 1]] else [])
  }

  /** Filtering works piece by piece: the kept elements of a prefix come before those of the rest. */
  lemma {:induction false} FilterAppend<T>(a: seq<T>, b: seq<T>, keep: T -> bool)
    ensures Filter(a + b, keep) == Filter(a, keep) + Filter(b, keep)
  {
    if b == [] {
      assert a + b == a;
    } else {
      assert (a + b)[..|a + b| - 1] == a + b[..|b| - 1];
      FilterAppend(a, b[..|b| - 1], keep);
    }
  }

  /** Two tests that agree on every element keep the same elements. */
  lemma {:induction false} FilterAgrees<T>(s: seq<T>, p: T -> bool, q: T -> bool)
    requires forall i :: 0 <= i < |s| ==> p(s[i]) == q(s[i])
    ensures Filter(s, p) == Filter(s, q)
  {
    if s != [] {
      FilterAgrees(s[..|s| - 1], p, q);
    }
  }

  /** The characters `String.prototype.trim` removes: ECMAScript's WhiteSpace (tab, vertical tab,
      form feed, space, no-break space, the byte order mark and the Unicode space separators) and
      LineTerminator (line feed, carriage return, line and paragraph separators). */
  predicate IsSpace(c: char) {
    || c == '\t' || c == '\n' || c == '\U{B}' || c == '\U{C}' || c == '\r' || c == ' '
    || c == '\U{A0}' || c == '\U{1680}' || '\U{2000}' <= c <= '\U{200A}'
    || c == '\U{2028}' || c == '\U{2029}' || c == '\U{202F}' || c == '\U{205F}'
    || c == '\U{3000}' || c == '\U{FEFF}'
  }

  /** `s` without its leading white space: every character dropped is white space. */
  function TrimStart(s: string): (r: string)
    ensures |r| <= |s| && r == s[|s| - |r|..]
    ensures r != [] ==> !IsSpace(r[0])
    ensures forall i :: 0 <= i < |s| - |r| ==> IsSpace(s[i])
  {
    if s != [] && IsSpace(s[0]) then TrimStart(s[1..]) else s
  }

  /** `s` without its trailing white space: every character dropped is white space. */
  function TrimEnd(s: string): (r: string)
    ensures |r| <= |s| && r == s[..|r|]
    ensures r != [] ==> !IsSpace(r[|r| - 1])
    ensures forall i :: |r| <= i < |s| ==> IsSpace(s[i])
  {
    if s != [] && IsSpace(s[|s| - 1]) then TrimEnd(s[..|s| - 1]) else s
  }

  /** `String.prototype.trim`: the part of `s` between its leading and its trailing white space.
      The characters before and after that part are all white space, and the part neither starts
      nor ends with white space, so it is the longest such middle. */
  function Trim(s: string): (r: string)
    ensures |r| <= |s|
    ensures r != [] ==> !IsSpace(r[0]) && !IsSpace(r[|r| - 1])
    ensures exists k :: TrimmedAt(s, k, r)
  {
    TrimIsSlice(s);
    assert TrimmedAt(s, |s| - |TrimStart(s)|, TrimEnd(TrimStart(s)));
    TrimEnd(TrimStart(s))
  }

  /** `r` is the slice of `s` at offset `k` with nothing but white space around it. */
  predicate TrimmedAt(s: string, k: int, r: string) {
    && 0 <= k && k + |r| <= |s| && r == s[k..k + |r|]
    && (forall i :: 0 <= i < k ==> IsSpace(s[i]))
    && (forall i :: k + |r| <= i < |s| ==> IsSpace(s[i]))
  }

  /** The trimmed string is the slice of `s` that starts after the leading white space and stops
      before the trailing white space. */
  lemma TrimIsSlice(s: string)
    ensures TrimmedAt(s, |s| - |TrimStart(s)|, TrimEnd(TrimStart(s)))
  {
    TrimmedBetween(s, TrimStart(s), TrimEnd(TrimStart(s)));
  }

  /** Helper for `TrimIsSlice`: a suffix after white space, cut before white space, is a slice
      with only white space around it. */
  lemma TrimmedBetween(s: string, ts: string, t: string)
    requires |ts| <= |s| && ts == s[|s| - |ts|..]
    requires forall i :: 0 <= i < |s| - |ts| ==> IsSpace(s[i])
    requires |t| <= |ts| && t == ts[..|t|]
    requires forall j :: |t| <= j < |ts| ==> IsSpace(ts[j])
    ensures TrimmedAt(s, |s| - |ts|, t)
  {
    var k := |s| - |ts|;
    assert t == s[k..k + |t|];
    forall i | k + |t| <= i < |s| ensures IsSpace(s[i]) {
      assert s[i] == ts[i - k];
    }
  }

  /** A string that is all white space trims to nothing, and one that is not keeps a character. */
  lemma TrimEmpty(s: string)
    ensures Trim(s) == "" <==> forall i :: 0 <= i < |s| ==> IsSpace(s[i])
  {
    TrimIsSlice(s);
  }

  /** Trimming a string without capitals leaves none. */
  lemma TrimKeepsNoUpper(s: string)
    requires NoUpper(s)
    ensures NoUpper(Trim(s))
  {
    var k := |s| - |TrimStart(s)|;
    TrimIsSlice(s);
    NoUpperSlice(s, k, k + |TrimEnd(TrimStart(s))|);
  }

  /** Trimming twice is trimming once, as the schema's `trim` setter relies on. */
  lemma TrimIdempotent(s: string)
    ensures Trim(Trim(s)) == Trim(s)
  {
    var t := Trim(s);
    assert TrimStart(t) == t;
  }

  /** One failed path of a Mongoose validation: its name and its message. */
  datatype PathError = PathError(path: string, message: string)

  /** The message of a Mongoose validation error: `<Model> validation failed: ` followed by
      `path: message` for every failed path, joined with ", ". */
  function ValidationMessage(model: string, errors: seq<PathError>): string {
    model + " validation failed: " + JoinErrors(errors)
  }

  function JoinErrors(errors: seq<PathError>): string {
    if errors == [] then ""
    else if |errors| == 1 then errors[0].path + ": " + errors[0].message
    else errors[0].path + ": " + errors[0].message + ", " + JoinErrors(errors[1..])
  }

  /** The start of the error MongoDB reports when an insert or update breaks a unique index (the
      collection, index and key it goes on to name are not modelled). */
  const DuplicateKey := "E11000 duplicate key error"

  /** The message of the `ValidationError` that `runValidators` raises for an update: there is no
      model name in front. */
  function UpdateValidationMessage(errors: seq<PathError>): string {
    "Validation failed: " + JoinErrors(errors)
  }

  predicate IsHexDigit(c: char) {
    '0' <= c <= '9' || 'a' <= c <= 'f' || 'A' <= c <= 'F'
  }

  /** Whether a string casts to an ObjectId: exactly 24 hexadecimal digits. */
  predicate IsObjectId(s: string) {
    |s| == 24 && forall i :: 0 <= i < |s| ==> IsHexDigit(s[i])
  }

  /** The error Mongoose records for `path` when `value` does not cast to an ObjectId. */
  function CastError(path: string, value: string): PathError {
    PathError(path, "Cast to ObjectId failed for value \"" + value + "\" (type string) at path \"" + path
                    + "\" because of \"BSONError\"")
  }

  /** The cast errors of ObjectId paths, in the given order: one for each path whose value is given
      and not an ObjectId. The ObjectId cast has no case for the empty string (unlike the Number
      cast), so `""` fails it too; only an absent value is left to the `required` check. */
  function CastErrors(refs: seq<(string, Option<string>)>): (r: seq<PathError>)
    ensures r == [] <==> forall i :: 0 <= i < |refs| ==> refs[i].1.None? || IsObjectId(refs[i].1.value)
    ensures forall i :: 0 <= i < |refs| && refs[i].1.Some? && !IsObjectId(refs[i].1.value) ==>
      CastError(refs[i].0, refs[i].1.value) in r
    ensures |r| <= |refs|
  {
    if refs == [] then []
    else
      var (path, value) := refs[0];
      (if value.Some? && !IsObjectId(value.value) then [CastError(path, value.value)] else [])
      + CastErrors(refs[1..])
  }

  /** An empty string given for an ObjectId path is reported as a cast error of that path. */
  lemma EmptyIdCastFails(path: string)
    ensures CastErrors([(path, Some(""))]) == [CastError(path, "")]
  {
    assert !IsObjectId("");
    assert [(path, Some(""))][1..] == [];
  }

  /** A Razorpay order id (`order_...`) is not an ObjectId: the underscore is no hexadecimal digit. */
  lemma GatewayIdNotObjectId(s: string)
    requires |s| >= 6 && s[..6] == "order_"
    ensures !IsObjectId(s)
  {
    assert !IsHexDigit(s[5]);
  }

  /** The message of Mongoose's `required` validator. */
  function Required(path: string): PathError {
    PathError(path, "Path `" + path + "` is required.")
  }

  predicate IsDigit(c: char) {
    '0' <= c <= '9'
  }

  predicate AllDigits(s: string) {
    forall i | 0 <= i < |s| :: IsDigit(s[i])
  }

  function DigitChar(d: int): (c: char)
    requires 0 <= d < 10
    ensures IsDigit(c) && c as int - '0' as int == d
  {
    ('0' as int + d) as char
  }

  /** The decimal text of a non-negative integer, as a template literal prints it. */
  function Decimal(n: nat): (r: string)
    ensures |r| >= 1 && AllDigits(r)
    ensures n < 10 <==> |r| == 1
  {
    if n < 10 then [DigitChar(n)] else Decimal(n / 10) + [DigitChar(n % 10)]
  }

  /** The number a string of decimal digits denotes. */
  function DigitsValue(s: string): int
    requires AllDigits(s)
  {
    if s == [] then 0
    else DigitsValue(s[..|s| - 1]) * 10 + (s[|s| - 1] as int - '0' as int)
  }

  /** Reading back the decimal text gives the number. */
  lemma {:induction false} DecimalValue(n: nat)
    ensures DigitsValue(Decimal(n)) == n
  {
    if n >= 10 {
      DecimalValue(n / 10);
      var r := Decimal(n);
      assert r[..|r| - 1] == Decimal(n / 10);
    }
  }

  /** Two digit strings of one length that denote the same number are the same string. */
  lemma {:induction false} DigitsInjective(a: string, b: string)
    requires AllDigits(a) && AllDigits(b) && |a| == |b|
    requires DigitsValue(a) == DigitsValue(b)
    ensures a == b
  {
    if a != [] {
      var n := |a|;
      var x, y := a[n - 1] as int - '0' as int, b[n - 1] as int - '0' as int;
      assert DigitsValue(a[..n - 1]) * 10 + x == DigitsValue(b[..n - 1]) * 10 + y;
      assert x == y && DigitsValue(a[..n - 1]) == DigitsValue(b[..n - 1]);
      DigitsInjective(a[..n - 1], b[..n - 1]);
      assert a == a[..n - 1] + [a[n - 1]] && b == b[..n - 1] + [b[n - 1]];
    }
  }

  /** JavaScript's `<` on two strings whose characters each take one UTF-16 code unit: the
      first position where they differ decides, and a proper prefix comes first. */
  predicate LexLess(a: string, b: string) {
    if a == [] then b != []
    else b != [] && (a[0] < b[0] || (a[0] == b[0] && LexLess(a[1..], b[1..])))
  }

  /** No string comes before itself. */
  lemma {:induction false} LexLessIrreflexive(a: string)
    ensures !LexLess(a, a)
  {
    if a != [] {
      LexLessIrreflexive(a[1..]);
    }
  }

  /** A common prefix leaves the comparison to what follows it. */
  lemma {:induction false} LexLessPrefix(p: string, a: string, b: string)
    ensures LexLess(p + a, p + b) <==> LexLess(a, b)
  {
    if p == [] {
      assert p + a == a && p + b == b;
    } else {
      assert (p + a)[0] == p[0] == (p + b)[0];
      assert (p + a)[1..] == p[1..] + a && (p + b)[1..] == p[1..] + b;
      LexLessPrefix(p[1..], a, b);
    }
  }

  /** Between two strings of one length, whatever follows them does not change the order. */
  lemma {:induction false} LexLessExtend(a: string, b: string, x: string, y: string)
    requires |a| == |b| && LexLess(a, b)
    ensures LexLess(a + x, b + y)
  {
    assert (a + x)[0] == a[0] && (b + y)[0] == b[0];
    if a[0] == b[0] {
      assert (a + x)[1..] == a[1..] + x && (b + y)[1..] == b[1..] + y;
      LexLessExtend(a[1..], b[1..], x, y);
    }
  }

  /** Two digit strings of one length compare as the numbers they denote. */
  lemma {:induction false} DigitsOrder(a: string, b: string)
    requires AllDigits(a) && AllDigits(b) && |a| == |b|
    requires DigitsValue(a) < DigitsValue(b)
    ensures LexLess(a, b)
  {
    var n := |a|;
    var a0, b0 := a[..n - 1], b[..n - 1];
    assert a == a0 + [a[n - 1]] && b == b0 + [b[n - 1]];
    var x, y := a[n - 1] as int - '0' as int, b[n - 1] as int - '0' as int;
    assert DigitsValue(a0) * 10 + x < DigitsValue(b0) * 10 + y;
    if DigitsValue(a0) == DigitsValue(b0) {
      DigitsInjective(a0, b0);
      LexLessPrefix(a0, [a[n - 1]], [b[n - 1]]);
    } else {
      assert DigitsValue(a0) < DigitsValue(b0);
      DigitsOrder(a0, b0);
      LexLessExtend(a0, b0, [a[n - 1]], [b[n - 1]]);
    }
  }
}
