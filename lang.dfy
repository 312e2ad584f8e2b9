/**
 * The Java runtime behaviour the plugin depends on: nullable references,
 * exceptions as an explicit result, and the string helpers of java.lang,
 * commons-lang `StringUtils` and Jenkins' `Util` that the plugin calls.
 */
module Lang {

  /** A Java reference that may be null. */
  datatype Nullable<+T> = Null | Val(v: T)

  /** The exceptions the plugin's code can raise or propagate. */
  datatype Error =
    | NullPointer               // a method called on null
    | IllegalState              // a Gson `getAsJsonObject` on a non-object
    | ClassCast                 // a Gson `getAsJsonArray(key)` on a non-array member
    | UnsupportedOperation      // a Gson `getAsString` on null, an object or a multi-element array
    | IndexOutOfBounds          // `substring` or `List.get` out of range
    | MalformedUrl              // `new URL(null)`
    | IOError(message: string)  // an `IOException` raised by the plugin with this message
    | Rethrown(cause: Error)    // `new IOException(e.getMessage(), e)` wrapping `cause`

  /** A value, or the exception that was thrown instead. */
  datatype Result<+T> = Ok(value: T) | Err(error: Error) {
    predicate IsFailure() { Err? }
    function PropagateFailure<U>(): Result<U> requires Err? { Err(error) }
    function Extract(): T requires Ok? { value }
  }

  /** The completion of a `void` method: normal, or by an exception. */
  datatype Outcome = Pass | Fail(error: Error)

  /** Java's string conversion in `+` and `String.format("%s")`: null prints as "null". */
  function Show(s: Nullable<string>): string
  {
    match s
    case Null => "null"
    case Val(t) => t
  }

  // ---------------------------------------------------------------------------
  // Blank and trimmed strings

  /** `Character.isWhitespace` (Java 8, Unicode 6.2): space separators other than
      the no-break spaces, line and paragraph separators, and the ASCII controls
      U+0009..U+000D and U+001C..U+001F. */
  predicate IsWhitespace(c: char)
  {
    var n := c as int;
    || 0x09 <= n <= 0x0D || 0x1C <= n <= 0x20
    || n == 0x1680 || n == 0x180E
    || 0x2000 <= n <= 0x2006 || 0x2008 <= n <= 0x200A
    || n == 0x2028 || n == 0x2029 || n == 0x205F || n == 0x3000
  }

  /** `StringUtils.isBlank`: null, empty, or whitespace only. */
  predicate IsBlank(s: Nullable<string>)
  {
    s.Null? || forall i :: 0 <= i < |s.v| ==> IsWhitespace(s.v[i])
  }

  /** The characters `String.trim` removes from both ends: every code point up to U+0020. */
  predicate IsTrimmable(c: char)
  {
    c <= ' '
  }

  /** `s` with its leading trimmable characters removed. */
  function TrimStart(s: string): (r: string)
    ensures |r| <= |s| && r == s[|s| - |r|..]
    ensures forall i :: 0 <= i < |s| - |r| ==> IsTrimmable(s[i])
    ensures r == [] || !IsTrimmable(r[0])
  {
    if s != [] && IsTrimmable(s[0]) then TrimStart(s[1..]) else s
  }

  /** `s` with its trailing trimmable characters removed. */
  function TrimEnd(s: string): (r: string)
    ensures |r| <= |s| && r == s[..|r|]
    ensures forall i :: |r| <= i < |s| ==> IsTrimmable(s[i])
    ensures r == [] || !IsTrimmable(r[|r| - 1])
  {
    if s != [] && IsTrimmable(s[|s| - 1]) then TrimEnd(s[..|s| - 1]) else s
  }

  /** `String.trim`. */
  function Trim(s: string): (r: string)
  {
    TrimEnd(TrimStart(s))
  }

  /** Trimming leaves nothing exactly when every character is trimmable, and
      otherwise keeps a slice of `s` that starts and ends with a kept character. */
  lemma TrimEmptyIff(s: string)
    ensures Trim(s) == [] <==> forall i :: 0 <= i < |s| ==> IsTrimmable(s[i])
    ensures Trim(s) != [] ==> !IsTrimmable(Trim(s)[0]) && !IsTrimmable(Trim(s)[|Trim(s)| - 1])
    ensures exists a, b :: 0 <= a <= b <= |s| && Trim(s) == s[a..b]
  {
    TrimIsSlice(s);
    if Trim(s) == [] {
      TrimEmptyAllTrimmable(s);
    } else {
      assert Trim(s)[0] == TrimStart(s)[0];
    }
  }

  /** `Trim(s)` is the slice of `s` after its leading trimmable characters. */
  lemma TrimIsSlice(s: string)
    ensures var k := |s| - |TrimStart(s)|; k + |Trim(s)| <= |s| && Trim(s) == s[k..k + |Trim(s)|]
  {
    var t := TrimStart(s);
    var k := |s| - |t|;
    var u := TrimEnd(t);
    assert t == s[k..] && u == t[..|u|];
    assert Trim(s) == u;
    assert s[k..][..|u|] == s[k..k + |u|];
  }

  /** When trimming leaves nothing, every character was trimmable. */
  lemma TrimEmptyAllTrimmable(s: string)
    requires Trim(s) == []
    ensures forall i :: 0 <= i < |s| ==> IsTrimmable(s[i])
  {
    var t := TrimStart(s);
    var k := |s| - |t|;
    assert t == s[k..];
    forall i | k <= i < |s| ensures IsTrimmable(s[i]) {
      assert s[i] == t[i - k];
    }
  }

  /** A character that is not trimmable occurs in `s` exactly when it occurs in
      `Trim(s)`: trimming drops trimmable characters only. */
  lemma TrimKeepsNonTrimmable(s: string, c: char)
    requires !IsTrimmable(c)
    ensures c in s <==> c in Trim(s)
  {
    var t := TrimStart(s);
    var k := |s| - |t|;
    var u := TrimEnd(t);
    assert t == s[k..] && u == t[..|u|];
    if c in s {
      var i :| 0 <= i < |s| && s[i] == c;
      assert k <= i;
      assert s[i] == t[i - k];
      assert i - k < |u|;
      assert u[i - k] == c;
    }
  }

  /** Trimming twice is trimming once. */
  lemma TrimIdempotent(s: string)
    ensures Trim(Trim(s)) == Trim(s)
  {
    TrimEmptyIff(s);
    var t := Trim(s);
    if t != [] {
      assert TrimStart(t) == t;
      assert TrimEnd(t) == t;
    }
  }

  /** Jenkins' `Util.fixEmptyAndTrim`: trim, then turn the empty string into null. */
  function FixEmptyAndTrim(s: Nullable<string>): (r: Nullable<string>)
    ensures r.Null? <==> s.Null? || forall i :: 0 <= i < |s.v| ==> IsTrimmable(s.v[i])
    ensures r.Val? ==> r.v == Trim(s.v) && r.v != []
  {
    match s
    case Null => Null
    case Val(t) =>
      TrimEmptyIff(t);
      var u := Trim(t);
      if u == [] then Null else Val(u)
  }

  // ---------------------------------------------------------------------------
  // Case and search

  /** `Character.toLowerCase`, restricted to the ASCII letters. */
  function LowerChar(c: char): char
  {
    if 'A' <= c <= 'Z' then (c as int + 32) as char else c
  }

  /** `String.toLowerCase` on ASCII letters. */
  function ToLower(s: string): (r: string)
    ensures |r| == |s| && forall i :: 0 <= i < |s| ==> r[i] == LowerChar(s[i])
  {
    seq(|s|, i requires 0 <= i < |s| => LowerChar(s[i]))
  }

  /** `String.equalsIgnoreCase` on ASCII letters: same length, same letters up to case. */
  predicate EqualsIgnoreCase(a: string, b: string)
  {
    |a| == |b| && forall i :: 0 <= i < |a| ==> LowerChar(a[i]) == LowerChar(b[i])
  }

  /** Ignoring case is comparing the lowercased forms. */
  lemma EqualsIgnoreCaseIsLowerEquality(a: string, b: string)
    ensures EqualsIgnoreCase(a, b) <==> ToLower(a) == ToLower(b)
  {
    if ToLower(a) == ToLower(b) {
      assert |a| == |ToLower(a)|;
      forall i | 0 <= i < |a| ensures LowerChar(a[i]) == LowerChar(b[i]) {
        assert ToLower(a)[i] == ToLower(b)[i];
      }
    }
  }

  /** `String.indexOf(char)`: the first position of `c` in `s`, or -1. */
  function IndexOf(s: string, c: char): (r: int)
    ensures -1 <= r < |s|
    ensures r == -1 <==> c !in s
    ensures r >= 0 ==> s[r] == c && c !in s[..r]
  {
    if s == [] then -1
    else if s[0] == c then 0
    else
      var k := IndexOf(s[1..], c);
      assert k >= 0 ==> s[1..][..k] == s[1..k + 1];
      if k == -1 then -1 else k + 1
  }

  // ---------------------------------------------------------------------------
  // Loops over a list that stop at the first exception.
  // Both are defined on the prefix, so that a loop that has handled s[..i]
  // has computed the combinator on s[..i].

  /** Applies `f` to each element in order and collects the results; the first
      element whose `f` fails makes the whole walk fail with that exception. */
  function MapAll<A, B>(f: A -> Result<B>, s: seq<A>): (r: Result<seq<B>>)
    ensures r.Ok? <==> forall i :: 0 <= i < |s| ==> f(s[i]).Ok?
    ensures r.Ok? ==> |r.value| == |s| && forall i :: 0 <= i < |s| ==> r.value[i] == f(s[i]).value
  {
    if s == [] then Ok([])
    else
      var init := MapAll(f, s[..|s| - 1]);
      assert forall i :: 0 <= i < |s| - 1 ==> s[..|s| - 1][i] == s[i];
      if init.Err? then Err(init.error)
      else
        var last := f(s[|s| - 1]);
        if last.Err? then Err(last.error) else Ok(init.value + [last.value])
  }

  /** The exception of a failed `MapAll` is that of the first failing element. */
  lemma {:induction false} MapAllFirstError<A, B>(f: A -> Result<B>, s: seq<A>, k: nat)
    requires k < |s| && f(s[k]).Err?
    requires forall j :: 0 <= j < k ==> f(s[j]).Ok?
    ensures MapAll(f, s) == Err(f(s[k]).error)
  {
    var n := |s| - 1;
    assert forall i :: 0 <= i < n ==> s[..n][i] == s[i];
    if k < n {
      MapAllFirstError(f, s[..n], k);
    }
  }

  /** Like `MapAll`, but each element contributes a list of zero or more results. */
  function Collect<A, B>(f: A -> Result<seq<B>>, s: seq<A>): (r: Result<seq<B>>)
    ensures r.Ok? <==> forall i :: 0 <= i < |s| ==> f(s[i]).Ok?
  {
    if s == [] then Ok([])
    else
      var init := Collect(f, s[..|s| - 1]);
      assert forall i :: 0 <= i < |s| - 1 ==> s[..|s| - 1][i] == s[i];
      if init.Err? then Err(init.error)
      else
        var last := f(s[|s| - 1]);
        if last.Err? then Err(last.error) else Ok(init.value + last.value)
  }

  /** One more step of `Collect`: what a loop body adds after handling `s[..i]`. */
  lemma CollectStep<A, B>(f: A -> Result<seq<B>>, s: seq<A>, i: nat)
    requires i < |s|
    ensures Collect(f, s[..i + 1]) ==
      (if Collect(f, s[..i]).Err? then Err(Collect(f, s[..i]).error)
       else if f(s[i]).Err? then Err(f(s[i]).error)
       else Ok(Collect(f, s[..i]).value + f(s[i]).value))
  {
    assert s[..i + 1][..i] == s[..i];
  }

  /** One more step of `MapAll`. */
  lemma MapAllStep<A, B>(f: A -> Result<B>, s: seq<A>, i: nat)
    requires i < |s|
    ensures MapAll(f, s[..i + 1]) ==
      (if MapAll(f, s[..i]).Err? then Err(MapAll(f, s[..i]).error)
       else if f(s[i]).Err? then Err(f(s[i]).error)
       else Ok(MapAll(f, s[..i]).value + [f(s[i]).value]))
  {
    assert s[..i + 1][..i] == s[..i];
  }

  /** A `Collect` that failed on a prefix fails on the whole list, with the same exception. */
  lemma {:induction false} CollectErrSticky<A, B>(f: A -> Result<seq<B>>, s: seq<A>, i: nat)
    requires i <= |s| && Collect(f, s[..i]).Err?
    ensures Collect(f, s) == Collect(f, s[..i])
  {
    if i < |s| {
      var n := |s| - 1;
      assert s[..n][..i] == s[..i];
      CollectErrSticky(f, s[..n], i);
      assert s[..i] != s;
    } else {
      assert s[..i] == s;
    }
  }

  /** A `MapAll` that failed on a prefix fails on the whole list, with the same exception. */
  lemma {:induction false} MapAllErrSticky<A, B>(f: A -> Result<B>, s: seq<A>, i: nat)
    requires i <= |s| && MapAll(f, s[..i]).Err?
    ensures MapAll(f, s) == MapAll(f, s[..i])
  {
    if i < |s| {
      var n := |s| - 1;
      assert s[..n][..i] == s[..i];
      MapAllErrSticky(f, s[..n], i);
    } else {
      assert s[..i] == s;
    }
  }
}
