/** The few pieces of java.lang behaviour the rest of the model relies on:
    null references, 32- and 64-bit integer wrap-around, and the String
    operations used by the core (toLowerCase, trim, contains, isEmpty,
    equalsIgnoreCase, split on a single character). Case mapping covers
    the ASCII letters only. */
module JavaLang {

  /** A Java reference that may be null: None is null. */
  datatype Option<+T> = None | Some(value: T)

  /** Success or the exception a Java call throws. */
  datatype Result<+R, +E> = Success(value: R) | Failure(error: E)

  const INT_MIN: int := -0x8000_0000
  const INT_MAX: int := 0x7FFF_FFFF
  const LONG_MIN: int := -0x8000_0000_0000_0000
  const LONG_MAX: int := 0x7FFF_FFFF_FFFF_FFFF

  predicate IsInt(x: int) { INT_MIN <= x <= INT_MAX }
  predicate IsLong(x: int) { LONG_MIN <= x <= LONG_MAX }

  /** Java's narrowing of an integer result to 32 bits (two's complement wrap-around). */
  function ToInt(x: int): (r: int)
    ensures IsInt(r)
    ensures (x - r) % 0x1_0000_0000 == 0
    ensures IsInt(x) ==> r == x
  {
    (x - INT_MIN) % 0x1_0000_0000 + INT_MIN
  }

  /** Java's narrowing of an integer result to 64 bits (two's complement wrap-around). */
  function ToLong(x: int): (r: int)
    ensures IsLong(r)
    ensures (x - r) % 0x1_0000_0000_0000_0000 == 0
    ensures IsLong(x) ==> r == x
  {
    (x - LONG_MIN) % 0x1_0000_0000_0000_0000 + LONG_MIN
  }

  /** Character.toLowerCase restricted to ASCII: 'A'..'Z' map to 'a'..'z'. */
  function LowerChar(c: char): char
  {
    if 'A' <= c <= 'Z' then (c as int + 32) as char else c
  }

  /** String.toLowerCase, character by character. */
  function ToLower(s: string): (r: string)
    ensures |r| == |s|
    ensures forall i :: 0 <= i < |s| ==> r[i] == LowerChar(s[i])
  {
    seq(|s|, i requires 0 <= i < |s| => LowerChar(s[i]))
  }

  /** String.equalsIgnoreCase on non-null arguments. */
  predicate EqualsIgnoreCase(a: string, b: string)
  {
    ToLower(a) == ToLower(b)
  }

  /** The characters String.trim removes: every code point up to the space. */
  predicate IsTrimmable(c: char) { c <= ' ' }

  function TrimStart(s: string): (r: string)
    ensures |r| <= |s| && r == s[|s| - |r|..]
    ensures r != [] ==> !IsTrimmable(r[0])
    ensures forall i :: 0 <= i < |s| - |r| ==> IsTrimmable(s[i])
  {
    if s != [] && IsTrimmable(s[0]) then TrimStart(s[1..]) else s
  }

  function TrimEnd(s: string): (r: string)
    ensures |r| <= |s| && r == s[..|r|]
    ensures r != [] ==> !IsTrimmable(r[|r| - 1])
    ensures forall i :: |r| <= i < |s| ==> IsTrimmable(s[i])
  {
    if s != [] && IsTrimmable(s[|s| - 1]) then TrimEnd(s[..|s| - 1]) else s
  }

  /** String.trim: drop leading and trailing characters up to the space. */
  function Trim(s: string): string
  {
    TrimEnd(TrimStart(s))
  }

  /** `s.trim().isEmpty()`: the string is made of trimmable characters only. */
  lemma TrimEmptyIff(s: string)
    ensures Trim(s) == [] <==> forall i :: 0 <= i < |s| ==> IsTrimmable(s[i])
  {
    var t := TrimStart(s);
    if Trim(s) == [] {
      assert t == [];
    } else {
      var r := Trim(s);
      assert !IsTrimmable(r[0]) by { assert r[0] == t[0]; }
      assert r[0] == s[|s| - |t|];
    }
  }

  /** String.contains. */
  predicate Contains(s: string, part: string)
  {
    exists i :: 0 <= i <= |s| - |part| && OccursAt(s, part, i)
  }

  /** part is found in s starting at index i. */
  predicate OccursAt(s: string, part: string, i: int)
  {
    0 <= i <= |s| - |part| && s[i..i + |part|] == part
  }

  /** The first field of s cut at sep: everything before the first sep. */
  function FirstField(s: string, sep: char): (r: string)
    ensures |r| <= |s| && r == s[..|r|] && sep !in r
    ensures |r| < |s| ==> s[|r|] == sep
  {
    if s == [] || s[0] == sep then [] else [s[0]] + FirstField(s[1..], sep)
  }

  /** Every field of s between occurrences of sep (at least one field). */
  function Fields(s: string, sep: char): (r: seq<string>)
    ensures |r| >= 1
    decreases |s|
  {
    var f := FirstField(s, sep);
    if |f| == |s| then [s] else [f] + Fields(s[|f| + 1..], sep)
  }

  /** A list of strings with its trailing empty strings removed. */
  function DropTrailingEmpty(xs: seq<string>): (r: seq<string>)
    ensures |r| <= |xs| && r == xs[..|r|]
    ensures r != [] ==> r[|r| - 1] != []
    ensures forall i :: |r| <= i < |xs| ==> xs[i] == []
  {
    if xs != [] && xs[|xs| - 1] == [] then DropTrailingEmpty(xs[..|xs| - 1]) else xs
  }

  /** String.split with a single ordinary character as the pattern and no limit:
      a string without the separator gives itself; otherwise the fields, with
      trailing empty fields removed. */
  function Split(s: string, sep: char): seq<string>
  {
    if sep !in s then [s] else DropTrailingEmpty(Fields(s, sep))
  }

  lemma {:induction false} FieldsHead(s: string, sep: char)
    ensures Fields(s, sep)[0] == FirstField(s, sep)
  {
  }

  predicate AllEmpty(xs: seq<string>) { forall i :: 0 <= i < |xs| ==> xs[i] == [] }

  predicate AllSeparators(s: string, sep: char) { forall i :: 0 <= i < |s| ==> s[i] == sep }

  /** All fields are empty exactly when the string is made of separators only. */
  lemma {:induction false} FieldsAllEmpty(s: string, sep: char)
    ensures AllEmpty(Fields(s, sep)) <==> AllSeparators(s, sep)
    decreases |s|
  {
    var f := FirstField(s, sep);
    if |f| == |s| {
      assert Fields(s, sep) == [s];
      if s != [] {
        assert s[0] != sep by { assert f[0] == s[0]; }
        assert Fields(s, sep)[0] != [];
      }
    } else {
      var rest := s[|f| + 1..];
      FieldsAllEmpty(rest, sep);
      var fs := Fields(s, sep);
      assert fs == [f] + Fields(rest, sep);
      if AllSeparators(s, sep) {
        assert s[0] == sep;
        assert f == [];
        forall i | 0 <= i < |rest| ensures rest[i] == sep { assert rest[i] == s[|f| + 1 + i]; }
        forall i | 0 <= i < |fs| ensures fs[i] == [] {
          if i > 0 { assert fs[i] == Fields(rest, sep)[i - 1]; }
        }
      }
      if AllEmpty(fs) {
        assert f == fs[0] == [];
        assert s[0] == sep;
        forall i | 0 <= i < |Fields(rest, sep)| ensures Fields(rest, sep)[i] == [] {
          assert Fields(rest, sep)[i] == fs[i + 1];
        }
        forall i | 0 <= i < |s| ensures s[i] == sep {
          if i > 0 { assert s[i] == rest[i - 1]; }
        }
      }
    }
  }

  /** The behaviour `split(sep)[0]` depends on: the split is empty exactly when
      the string is non-empty and made of separators only, and otherwise its
      first element is the text before the first separator. */
  lemma SplitFirst(s: string, sep: char)
    ensures Split(s, sep) == [] <==> (s != [] && AllSeparators(s, sep))
    ensures Split(s, sep) != [] ==> Split(s, sep)[0] == FirstField(s, sep)
  {
    if sep !in s {
      if s != [] { assert s[0] != sep; }
      assert FirstField(s, sep) == s;
    } else {
      var fs := Fields(s, sep);
      FieldsAllEmpty(s, sep);
      FieldsHead(s, sep);
      var r := DropTrailingEmpty(fs);
      if r != [] {
        assert r[0] == fs[0];
      } else {
        assert AllEmpty(fs);
      }
    }
  }
}
