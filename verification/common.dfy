/** Small value types and the Python string operations the rest of the model relies on. */
module Common {

  datatype Option<+T> = None | Some(value: T) {
    /** Python's `x or default` for an optional value. */
    function GetOr(default: T): T {
      match this
      case Some(v) => v
      case None => default
    }
  }

  /** The Python exceptions the modelled code raises, with their messages. */
  datatype Failure =
    | KeyError(key: string)
    | ValueError(message: string)
    | AttributeError(message: string)
    | RuntimeError(message: string)
    | ImportError(message: string)
    | Exception(message: string)
    | OverflowError(message: string)
    /** What reading or parsing the session file at `path` raised (`OSError`, or
        `JSONDecodeError` on a line that is not JSON); its text is not modelled. */
    | SessionLoadError(path: string)

  /** A value, or the exception raised instead of returning one. */
  datatype Result<+T> = Ok(value: T) | Err(failure: Failure)

  /** The code points for which Python's `str.isspace()` holds; `strip()` and the regex class `\s` use this set. */
  predicate IsSpace(c: char) {
    var n := c as int;
    n == 0x20 || (0x09 <= n <= 0x0D) || (0x1C <= n <= 0x1F) || n == 0x85 || n == 0xA0 ||
    n == 0x1680 || (0x2000 <= n <= 0x200A) || n == 0x2028 || n == 0x2029 ||
    n == 0x202F || n == 0x205F || n == 0x3000
  }

  /** `s.lstrip()`: drops the leading whitespace and nothing else. */
  function TrimStart(s: string): (r: string)
    ensures |r| <= |s| && r == s[|s| - |r|..]
    ensures r == [] || !IsSpace(r[0])
    ensures forall i :: 0 <= i < |s| - |r| ==> IsSpace(s[i])
  {
    if s != [] && IsSpace(s[0]) then TrimStart(s[1..]) else s
  }

  /** `s.rstrip()`: drops the trailing whitespace and nothing else. */
  function TrimEnd(s: string): (r: string)
    ensures |r| <= |s| && r == s[..|r|]
    ensures r == [] || !IsSpace(r[|r| - 1])
    ensures forall i :: |r| <= i < |s| ==> IsSpace(s[i])
  {
    if s != [] && IsSpace(s[|s| - 1]) then TrimEnd(s[..|s| - 1]) else s
  }

  /** `s.strip()`. */
  function Strip(s: string): string {
    TrimEnd(TrimStart(s))
  }

  /** `strip()` keeps one contiguous slice of `s`, and everything cut off is whitespace. */
  lemma StripIsTrimmedSlice(s: string)
    ensures var r, i := Strip(s), |s| - |TrimStart(s)|;
      i + |r| <= |s| && r == s[i..i + |r|] &&
      (forall k :: 0 <= k < i ==> IsSpace(s[k])) &&
      (forall k :: i + |r| <= k < |s| ==> IsSpace(s[k]))
  {
    var t := TrimStart(s);
    var r := TrimEnd(t);
    PrefixOfSuffix(s, t, r);
  }

  /** The result of `strip()` neither starts nor ends with whitespace. */
  lemma StripEndsNotSpace(s: string)
    ensures Strip(s) == [] || (!IsSpace(Strip(s)[0]) && !IsSpace(Strip(s)[|Strip(s)| - 1]))
  {
    var t := TrimStart(s);
    var r := TrimEnd(t);
    if r != [] {
      assert r[0] == t[0];
    }
  }

  /** `strip()` adds no character: one absent from `s` is absent from the result. */
  lemma StripKeepsOut(s: string, c: char)
    requires c !in s
    ensures c !in Strip(s)
  {
    var t := TrimStart(s);
    forall k | 0 <= k < |t|
      ensures t[k] != c
    {
      assert t[k] == s[|s| - |t| + k];
    }
    var r := TrimEnd(t);
    forall k | 0 <= k < |r|
      ensures r[k] != c
    {
      assert r[k] == t[k];
    }
  }

  /** A prefix `r` of a suffix `t` of `s` is a middle slice of `s`, and what follows `r` in
      `t` follows it in `s`. */
  lemma PrefixOfSuffix(s: string, t: string, r: string)
    requires |t| <= |s| && t == s[|s| - |t|..]
    requires |r| <= |t| && r == t[..|r|]
    requires forall k :: |r| <= k < |t| ==> IsSpace(t[k])
    ensures var i := |s| - |t|; r == s[i..i + |r|] && forall k :: i + |r| <= k < |s| ==> IsSpace(s[k])
  {
    var i := |s| - |t|;
    assert s[i..][..|r|] == s[i..i + |r|];
    forall k | i + |r| <= k < |s|
      ensures IsSpace(s[k])
    {
      assert s[k] == t[k - i];
    }
  }

  /** ASCII case mapping (Python's `lower()` restricted to ASCII letters). */
  function LowerChar(c: char): char {
    if 'A' <= c <= 'Z' then (c as int + 32) as char else c
  }

  function UpperChar(c: char): char {
    if 'a' <= c <= 'z' then (c as int - 32) as char else c
  }

  function Lower(s: string): (r: string)
    ensures |r| == |s| && forall i :: 0 <= i < |s| ==> r[i] == LowerChar(s[i])
  {
    seq(|s|, i requires 0 <= i < |s| => LowerChar(s[i]))
  }

  function Upper(s: string): (r: string)
    ensures |r| == |s| && forall i :: 0 <= i < |s| ==> r[i] == UpperChar(s[i])
  {
    seq(|s|, i requires 0 <= i < |s| => UpperChar(s[i]))
  }

  /** `sub` occurs in `s` starting at index `j`. */
  predicate OccursAt(s: string, sub: string, j: int) {
    0 <= j && j + |sub| <= |s| && s[j..j + |sub|] == sub
  }

  /** `s.find(sub)`: the first index where `sub` occurs, if any. */
  function IndexOf(s: string, sub: string): (r: Option<nat>)
    ensures r.Some? ==> OccursAt(s, sub, r.value)
    ensures r.Some? ==> forall j :: 0 <= j < r.value ==> !OccursAt(s, sub, j)
    ensures r.None? ==> forall j :: !OccursAt(s, sub, j)
    decreases |s|
  {
    if |s| < |sub| then None
    else if s[..|sub|] == sub then Some(0)
    else
      OccursInTail(s, sub);
      match IndexOf(s[1..], sub)
      case None => None
      case Some(k) => Some(k + 1)
  }

  /** Past its first character, `sub` occurs in `s` exactly where it occurs in `s[1..]`, one
      place later. */
  lemma OccursInTail(s: string, sub: string)
    requires s != []
    ensures forall j :: 0 < j ==> (OccursAt(s, sub, j) <==> OccursAt(s[1..], sub, j - 1))
  {
    forall j | 0 < j
      ensures OccursAt(s, sub, j) <==> OccursAt(s[1..], sub, j - 1)
    {
      if j + |sub| <= |s| {
        assert s[j..j + |sub|] == s[1..][j - 1..j - 1 + |sub|];
      }
    }
  }

  /** Python's `sub in s`. */
  predicate Contains(s: string, sub: string) {
    IndexOf(s, sub).Some?
  }

  predicate StartsWith(s: string, prefix: string) {
    |prefix| <= |s| && s[..|prefix|] == prefix
  }

  /** `s.split(sep)` for a one-character separator. */
  function Split(s: string, sep: char): (r: seq<string>)
    ensures |r| >= 1
    ensures forall i :: 0 <= i < |r| ==> sep !in r[i]
    decreases |s|
  {
    if s == [] then [""]
    else
      var rest := Split(s[1..], sep);
      if s[0] == sep then [""] + rest
      else [[s[0]] + rest[0]] + rest[1..]
  }

  /** `d.join(parts)`. */
  function Join(d: string, parts: seq<string>): string
    decreases |parts|
  {
    if |parts| == 0 then ""
    else if |parts| == 1 then parts[0]
    else parts[0] + d + Join(d, parts[1..])
  }

  /** Joining the pieces of a split with the separator gives back the original text. */
  lemma {:induction false} JoinSplit(s: string, sep: char)
    ensures Join([sep], Split(s, sep)) == s
    decreases |s|
  {
    if s != [] {
      JoinSplit(s[1..], sep);
      var rest := Split(s[1..], sep);
      if s[0] == sep {
        assert Join([sep], [""] + rest) == "" + [sep] + Join([sep], rest);
        assert s == [s[0]] + s[1..];
      } else {
        var parts := [[s[0]] + rest[0]] + rest[1..];
        if |rest| == 1 {
          assert Join([sep], parts) == [s[0]] + rest[0];
        } else {
          assert Join([sep], rest) == rest[0] + [sep] + Join([sep], rest[1..]);
          assert parts[1..] == rest[1..];
          assert Join([sep], parts) == [s[0]] + rest[0] + [sep] + Join([sep], rest[1..]);
        }
        assert s == [s[0]] + s[1..];
      }
    }
  }

  /** The first piece of `s.split(sep)` is the text before the first separator. */
  lemma {:induction false} FirstPieceIsPrefix(s: string, sep: char)
    ensures var p := Split(s, sep)[0];
      |p| <= |s| && p == s[..|p|] && sep !in p && (|p| < |s| ==> s[|p|] == sep)
    decreases |s|
  {
    if s != [] {
      FirstPieceIsPrefix(s[1..], sep);
    }
  }

  /** Joining pieces that hold no newline with a space gives text without a newline. */
  lemma {:induction false} JoinWithoutNewline(parts: seq<string>)
    requires forall i :: 0 <= i < |parts| ==> '\n' !in parts[i]
    ensures '\n' !in Join(" ", parts)
    decreases |parts|
  {
    if |parts| > 1 {
      JoinWithoutNewline(parts[1..]);
    }
  }

  /** Dropping the head of a non-empty prefix commutes with concatenation. */
  lemma SpliceTail<T>(pre: seq<T>, x: T, post: seq<T>)
    requires pre != []
    ensures (pre + [x] + post)[0] == pre[0]
    ensures (pre + [x] + post)[1..] == pre[1..] + [x] + post
  {
  }

  /** Slices of the tail of a sequence are slices of the sequence, shifted by one. */
  lemma TailSlices<T>(s: seq<T>, k: nat)
    requires 1 <= k <= |s|
    ensures s[1..][..k - 1] == s[1..k] && s[1..][k - 1..] == s[k..]
    ensures s[..k] == [s[0]] + s[1..k]
  {
  }

  /** Where Python's `s[start:]` begins for a list of length `len`: a negative start counts
      from the end, and both kinds are clamped to the list. */
  function SliceStart(len: nat, start: int): (i: nat)
    ensures i <= len
    ensures start >= 0 ==> i == if start <= len then start else len
    ensures start < 0 ==> i == if -start <= len then len + start else 0
  {
    if start < 0 then (if len + start < 0 then 0 else len + start)
    else if start > len then len
    else start
  }

  /** A sequence without repeated elements has as many distinct elements as entries. */
  lemma {:induction false} DistinctCardinality<T>(s: seq<T>)
    requires Distinct(s)
    ensures |set x | x in s| == |s|
    decreases |s|
  {
    if s != [] {
      var init := s[..|s| - 1];
      DistinctCardinality(init);
      assert (set x | x in s) == (set x | x in init) + {s[|s| - 1]};
      assert s[|s| - 1] !in (set x | x in init);
    }
  }

  /** `[x for x in s if x != v]`. */
  function Without(s: seq<string>, v: string): (r: seq<string>)
    ensures forall x :: x in r <==> x in s && x != v
    ensures v !in s ==> r == s
    ensures |r| <= |s|
    decreases |s|
  {
    if s == [] then []
    else if s[0] == v then Without(s[1..], v)
    else [s[0]] + Without(s[1..], v)
  }

  /** No element occurs twice. */
  predicate Distinct<T(==)>(s: seq<T>) {
    forall i, j :: 0 <= i < j < |s| ==> s[i] != s[j]
  }

  /** Removing a value keeps a repetition-free sequence repetition-free. */
  lemma {:induction false} WithoutKeepsDistinct(s: seq<string>, v: string)
    requires Distinct(s)
    ensures Distinct(Without(s, v))
    decreases |s|
  {
    if s != [] {
      assert Distinct(s[1..]);
      WithoutKeepsDistinct(s[1..], v);
      var rest := Without(s[1..], v);
      if s[0] != v {
        assert s[0] !in rest by {
          forall k | 1 <= k < |s| ensures s[k] != s[0] {}
        }
        var r := [s[0]] + rest;
        forall i, j | 0 <= i < j < |r| ensures r[i] != r[j] {
          if i == 0 {
            assert r[0] == s[0] && r[j] == rest[j - 1] && rest[j - 1] in rest;
          } else {
            assert r[i] == rest[i - 1] && r[j] == rest[j - 1];
          }
        }
      }
    }
  }
}
