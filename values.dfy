/** JavaScript values as the authorization code sees them: optional strings,
    identifier values (string ids and ObjectIds), the
    TypeError a `toString()` on a missing value throws, lower-casing and
    timestamps. */
module Values {

  datatype Option<+T> = None | Some(value: T)

  /** `o !== undefined ? o : fallback`. */
  function Or<T>(o: Option<T>, fallback: T): (r: T)
    ensures o.Some? ==> r == o.value
    ensures o.None? ==> r == fallback
  {
    if o.Some? then o.value else fallback
  }

  /** The outcome of an operation that may throw an `Error` of kind `E`. */
  datatype Result<+T, +E> = Ok(value: T) | Err(error: E)

  /** The completion of a JavaScript expression: a value, or a thrown TypeError
      (calling a method on `undefined` or `null`). */
  datatype Completion<+T> = Normal(value: T) | Throw

  /** An identifier-bearing value: missing (`undefined`/`null`), a plain string,
      or a Mongoose ObjectId whose hex string is `idString`. */
  datatype IdVal = NoId | Str(s: string) | Obj(idString: string)

  /** A timestamp, kept opaque: `Date.now()` read from a clock, or `new Date(text)`. */
  datatype Time = Clock(ms: int) | Parsed(text: string)

  /** JavaScript truthiness of an identifier value: objects are always truthy,
      strings only when non-empty. */
  predicate IsTruthy(v: IdVal)
  {
    match v
    case NoId => false
    case Str(s) => s != ""
    case Obj(_) => true
  }

  /** JavaScript truthiness of a string-or-null. */
  predicate Present(o: Option<string>)
  {
    o.Some? && o.value != ""
  }

  /** `v.toString()`: throws on a missing value. */
  function ToStringOf(v: IdVal): (r: Completion<string>)
    ensures r.Throw? <==> v.NoId?
    ensures v.Str? ==> r == Normal(v.s)
    ensures v.Obj? ==> r == Normal(v.idString)
  {
    match v
    case NoId => Throw
    case Str(s) => Normal(s)
    case Obj(x) => Normal(x)
  }

  /** The id value a string-or-null denotes (`null` is missing). */
  function IdOf(o: Option<string>): (v: IdVal)
    ensures v.NoId? <==> o.None?
  {
    if o.Some? then Str(o.value) else NoId
  }

  /** The characters `String.prototype.trim` removes. */
  predicate IsSpace(c: char)
  {
    var n := c as int;
    n == 9 || n == 10 || n == 11 || n == 12 || n == 13 || n == 32 || n == 0xA0 || n == 0x1680 ||
    (0x2000 <= n <= 0x200A) || n == 0x2028 || n == 0x2029 || n == 0x202F || n == 0x205F ||
    n == 0x3000 || n == 0xFEFF
  }

  /** Nothing but whitespace: `s.trim() === ''` (see `TrimBlank`). */
  predicate IsBlank(s: string)
  {
    forall i :: 0 <= i < |s| ==> IsSpace(s[i])
  }

  /** `s` with its leading whitespace removed. */
  function TrimStart(s: string): (r: string)
    ensures |r| <= |s|
  {
    if s != [] && IsSpace(s[0]) then TrimStart(s[1..]) else s
  }

  /** `s` with its trailing whitespace removed. */
  function TrimEnd(s: string): (r: string)
    ensures |r| <= |s|
  {
    if s != [] && IsSpace(s[|s| - 1]) then TrimEnd(s[..|s| - 1]) else s
  }

  /** `String.prototype.trim`. */
  function Trim(s: string): string
  {
    TrimEnd(TrimStart(s))
  }

  /** `TrimStart` cuts a whitespace prefix and stops at a non-space. */
  lemma {:induction false} TrimStartShape(s: string)
    ensures var r := TrimStart(s);
      && r == s[|s| - |r|..]
      && (r == [] || !IsSpace(r[0]))
      && forall i :: 0 <= i < |s| - |r| ==> IsSpace(s[i])
  {
    if s != [] && IsSpace(s[0]) {
      TrimStartShape(s[1..]);
    }
  }

  /** `TrimEnd` cuts a whitespace suffix and stops at a non-space. */
  lemma {:induction false} TrimEndShape(s: string)
    ensures var r := TrimEnd(s);
      && r == s[..|r|]
      && (r == [] || !IsSpace(r[|r| - 1]))
      && forall i :: |r| <= i < |s| ==> IsSpace(s[i])
  {
    if s != [] && IsSpace(s[|s| - 1]) {
      TrimEndShape(s[..|s| - 1]);
    }
  }

  /** What `trim` returns: the part of the input from the first to the last
      non-whitespace character, everything cut away being whitespace. */
  lemma TrimShape(s: string)
    ensures var r, a := Trim(s), |s| - |TrimStart(s)|;
      && a + |r| <= |s| && r == s[a..a + |r|]
      && (forall i :: 0 <= i < a ==> IsSpace(s[i]))
      && (forall i :: a + |r| <= i < |s| ==> IsSpace(s[i]))
      && (r == [] || (!IsSpace(r[0]) && !IsSpace(r[|r| - 1])))
  {
    var t := TrimStart(s);
    var r := TrimEnd(t);
    TrimStartShape(s);
    TrimEndShape(t);
    if r != [] {
      assert r[0] == t[0];
    }
  }

  /** Trimming twice is trimming once. */
  lemma TrimIdempotent(s: string)
    ensures Trim(Trim(s)) == Trim(s)
  {
    TrimShape(s);
  }

  /** A string trims to nothing exactly when it is blank. */
  lemma TrimBlank(s: string)
    ensures Trim(s) == [] <==> IsBlank(s)
  {
    TrimShape(s);
  }

  predicate IsUpper(c: char)
  {
    'A' <= c <= 'Z'
  }

  /** `toLowerCase()` on one character, restricted to ASCII letters. */
  function LowerChar(c: char): (r: char)
    ensures !IsUpper(r)
    ensures IsUpper(c) ==> r as int == c as int + 32
    ensures !IsUpper(c) ==> r == c
  {
    if IsUpper(c) then (c as int + 32) as char else c
  }

  /** `String.prototype.toLowerCase`, restricted to ASCII letters. */
  function Lower(s: string): (r: string)
    ensures |r| == |s|
  {
    if s == [] then [] else [LowerChar(s[0])] + Lower(s[1..])
  }

  /** Lower-casing works character by character. */
  lemma {:induction false} LowerPointwise(s: string)
    ensures forall i :: 0 <= i < |s| ==> Lower(s)[i] == LowerChar(s[i])
  {
    if s != [] {
      LowerPointwise(s[1..]);
      forall i | 0 <= i < |s|
        ensures Lower(s)[i] == LowerChar(s[i])
      {
        if i > 0 {
          assert Lower(s)[i] == Lower(s[1..])[i - 1];
        }
      }
    }
  }

  /** Two characters lower-case alike exactly when they are equal or are the
      upper- and lower-case forms of one ASCII letter. */
  lemma SameLetterIgnoringCase(a: char, b: char)
    ensures LowerChar(a) == LowerChar(b) <==>
      || a == b
      || (IsUpper(a) && b as int == a as int + 32)
      || (IsUpper(b) && a as int == b as int + 32)
  {
  }

  /** Two strings lower-case alike exactly when they have the same length and
      agree at every position up to the case of ASCII letters. */
  lemma LowerEqualIff(s: string, t: string)
    ensures Lower(s) == Lower(t) <==>
      |s| == |t| && forall i :: 0 <= i < |s| ==> LowerChar(s[i]) == LowerChar(t[i])
  {
    var ls, lt := Lower(s), Lower(t);
    LowerPointwise(s);
    LowerPointwise(t);
    if ls == lt {
      forall i | 0 <= i < |s|
        ensures LowerChar(s[i]) == LowerChar(t[i])
      {
        assert ls[i] == lt[i];
      }
    } else if |s| == |t| {
      var i :| 0 <= i < |ls| && ls[i] != lt[i];
      assert LowerChar(s[i]) != LowerChar(t[i]);
    }
  }

  /** Lower-casing twice is lower-casing once. */
  lemma {:induction false} LowerIdempotent(s: string)
    ensures Lower(Lower(s)) == Lower(s)
  {
    if s != [] {
      LowerIdempotent(s[1..]);
      assert Lower(s)[1..] == Lower(s[1..]);
    }
  }

  /** A string with no upper-case letter is its own lower-case form. */
  lemma {:induction false} LowerOfLower(s: string)
    requires forall i :: 0 <= i < |s| ==> !IsUpper(s[i])
    ensures Lower(s) == s
  {
    if s != [] {
      LowerOfLower(s[1..]);
    }
  }
}
