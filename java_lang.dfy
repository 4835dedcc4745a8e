/**
 * The few pieces of java.lang.String and android.text.TextUtils that the
 * call helpers and the SIM import/export code depend on, stated over Dafny
 * strings. A Java reference that may be null is an Option.
 */
module JavaLang {

  /** A Java reference: None is null. */
  datatype Option<+T> = None | Some(value: T)

  /** TextUtils.isEmpty: the string is null or has length zero. */
  predicate IsEmpty(s: Option<string>) {
    s.None? || s.value == ""
  }

  /** String.indexOf(char): the index of the first occurrence of c, or -1. */
  function IndexOf(s: string, c: char): (r: int)
    ensures -1 <= r < |s|
    ensures r == -1 <==> c !in s
    ensures r != -1 ==> s[r] == c && c !in s[..r]
  {
    if |s| == 0 then -1
    else if s[0] == c then 0
    else
      var i := IndexOf(s[1..], c);
      assert s[1..][..if i == -1 then 0 else i] == s[1..if i == -1 then 1 else i + 1];
      if i == -1 then -1 else i + 1
  }

  /** The first occurrence of c is found wherever the text before it is free of c. */
  lemma IndexOfAfterPrefix(x: string, c: char, rest: string)
    requires c !in x
    ensures IndexOf(x + [c] + rest, c) == |x|
  {
    var s := x + [c] + rest;
    assert s[|x|] == c;
  }

  /** Splitting off a leading field that holds no separator. */
  lemma FieldsCons(x: string, sep: char, rest: string)
    requires sep !in x
    ensures Fields(x + [sep] + rest, sep) == [x] + Fields(rest, sep)
  {
    var s := x + [sep] + rest;
    IndexOfAfterPrefix(x, sep, rest);
    assert s[..|x|] == x;
    assert s[|x| + 1..] == rest;
  }

  // ---------------------------------------------------------------------
  // String.length() and String.getBytes().length
  // ---------------------------------------------------------------------

  /** A character outside the Basic Multilingual Plane takes a UTF-16 surrogate pair. */
  function Utf16Units(c: char): nat {
    if c as int < 0x10000 then 1 else 2
  }

  /** The bytes UTF-8, the platform charset, spends on one character. */
  function Utf8Bytes(c: char): nat {
    if c as int < 0x80 then 1 else if c as int < 0x800 then 2 else if c as int < 0x10000 then 3 else 4
  }

  /**
   * String.length(): the number of UTF-16 code units, which is the number of
   * characters exactly when none lies outside the Basic Multilingual Plane.
   */
  function Length(s: string): (r: nat)
    ensures |s| <= r <= 2 * |s|
    ensures r == |s| <==> forall i :: 0 <= i < |s| ==> s[i] as int < 0x10000
  {
    if s == [] then 0
    else
      var rest := Length(s[1..]);
      assert forall i :: 1 <= i < |s| ==> s[i] == s[1..][i - 1];
      Utf16Units(s[0]) + rest
  }

  /** String.getBytes().length with the platform charset, UTF-8. */
  function EncodedLength(s: string): nat {
    if s == [] then 0 else Utf8Bytes(s[0]) + EncodedLength(s[1..])
  }

  /**
   * The encoding never takes fewer bytes than the string has UTF-16 units, and
   * takes exactly as many when and only when every character is ASCII.
   */
  lemma {:induction false} EncodedLengthVsLength(s: string)
    ensures EncodedLength(s) >= Length(s)
    ensures EncodedLength(s) == Length(s) <==> forall i :: 0 <= i < |s| ==> s[i] as int < 0x80
  {
    if s != [] {
      EncodedLengthVsLength(s[1..]);
      assert forall i :: 1 <= i < |s| ==> s[i] == s[1..][i - 1];
    }
  }

  // ---------------------------------------------------------------------
  // Case-insensitive comparison (String.equalsIgnoreCase)
  // ---------------------------------------------------------------------

  /** Character.toUpperCase, restricted to the ASCII letters. */
  function ToUpper(c: char): char {
    if 'a' <= c <= 'z' then (c as int - 32) as char else c
  }

  /** Character.toLowerCase, restricted to the ASCII letters. */
  function ToLower(c: char): char {
    if 'A' <= c <= 'Z' then (c as int + 32) as char else c
  }

  /**
   * The per-character test of String.regionMatches(ignoreCase = true): equal,
   * equal after upper-casing, or equal after upper- then lower-casing.
   */
  predicate CharEqualsIgnoreCase(a: char, b: char) {
    a == b || ToUpper(a) == ToUpper(b) || ToLower(ToUpper(a)) == ToLower(ToUpper(b))
  }

  /** String.equalsIgnoreCase on two non-null strings. */
  predicate EqualsIgnoreCase(s: string, t: string) {
    |s| == |t| && forall i :: 0 <= i < |s| ==> CharEqualsIgnoreCase(s[i], t[i])
  }

  /** The three-way character test collapses to one: same upper-case form. */
  lemma CharEqualsIgnoreCaseIsSameUpper(a: char, b: char)
    ensures CharEqualsIgnoreCase(a, b) <==> ToUpper(a) == ToUpper(b)
  {
  }

  /** equalsIgnoreCase is an equivalence relation on strings. */
  lemma EqualsIgnoreCaseIsEquivalence(s: string, t: string, u: string)
    ensures EqualsIgnoreCase(s, s)
    ensures EqualsIgnoreCase(s, t) ==> EqualsIgnoreCase(t, s)
    ensures EqualsIgnoreCase(s, t) && EqualsIgnoreCase(t, u) ==> EqualsIgnoreCase(s, u)
  {
    if EqualsIgnoreCase(s, t) && EqualsIgnoreCase(t, u) {
      forall i | 0 <= i < |s| ensures CharEqualsIgnoreCase(s[i], u[i]) {
        CharEqualsIgnoreCaseIsSameUpper(s[i], t[i]);
        CharEqualsIgnoreCaseIsSameUpper(t[i], u[i]);
        CharEqualsIgnoreCaseIsSameUpper(s[i], u[i]);
      }
    }
  }

  // ---------------------------------------------------------------------
  // String.split(",") and the comma-terminated join built by getEmails
  // ---------------------------------------------------------------------

  /** Every field between separators, empty ones included. */
  function Fields(s: string, sep: char): (r: seq<string>)
    ensures |r| >= 1
    ensures forall k :: 0 <= k < |r| ==> sep !in r[k]
    decreases |s|
  {
    var i := IndexOf(s, sep);
    if i == -1 then [s] else [s[..i]] + Fields(s[i + 1..], sep)
  }

  /** Removes the empty strings at the end of a field list. */
  function DropTrailingEmpty(fs: seq<string>): (r: seq<string>)
    ensures |r| <= |fs| && r == fs[..|r|]
    ensures r == [] || r[|r| - 1] != ""
    ensures forall k :: |r| <= k < |fs| ==> fs[k] == ""
  {
    if |fs| > 0 && fs[|fs| - 1] == "" then DropTrailingEmpty(fs[..|fs| - 1]) else fs
  }

  /** The fields put back together with the separator between them. */
  function JoinSeparated(fs: seq<string>, sep: char): string
    requires |fs| >= 1
  {
    if |fs| == 1 then fs[0] else fs[0] + [sep] + JoinSeparated(fs[1..], sep)
  }

  /** Cutting at every separator loses nothing: the fields join back to the string. */
  lemma {:induction false} FieldsJoinBack(s: string, sep: char)
    ensures JoinSeparated(Fields(s, sep), sep) == s
    decreases |s|
  {
    var i := IndexOf(s, sep);
    if i != -1 {
      var head, rest := s[..i], s[i + 1..];
      var fr := Fields(rest, sep);
      FieldsJoinBack(rest, sep);
      assert ([head] + fr)[1..] == fr;
      calc {
        JoinSeparated(Fields(s, sep), sep);
        JoinSeparated([head] + fr, sep);
        head + [sep] + JoinSeparated(fr, sep);
        head + [sep] + rest;
        s;
      }
    }
  }

  /**
   * String.split with a one-character separator: when the separator does not
   * occur the string itself is the only element (even when it is empty);
   * otherwise the fields between separators, of which only trailing empty
   * ones are dropped.
   */
  function Split(s: string, sep: char): (r: seq<string>)
    ensures forall k :: 0 <= k < |r| ==> sep !in r[k]
    ensures sep !in s ==> r == [s]
    ensures sep in s ==> var fs := Fields(s, sep);
      |r| <= |fs| && r == fs[..|r|] && (r == [] || r[|r| - 1] != "")
      && forall k :: |r| <= k < |fs| ==> fs[k] == ""
  {
    if sep !in s then [s] else DropTrailingEmpty(Fields(s, sep))
  }

  /** Each element followed by the separator, as a StringBuffer built in order. */
  function JoinTerminated(es: seq<string>, sep: char): string {
    if es == [] then "" else JoinTerminated(es[..|es| - 1], sep) + es[|es| - 1] + [sep]
  }

  lemma {:induction false} JoinTerminatedFront(es: seq<string>, sep: char)
    requires es != []
    ensures JoinTerminated(es, sep) == es[0] + [sep] + JoinTerminated(es[1..], sep)
    decreases |es|
  {
    if |es| == 1 {
      assert es[..0] == [] && es[1..] == [];
    } else {
      var init, last := es[..|es| - 1], es[|es| - 1];
      JoinTerminatedFront(init, sep);
      assert es[1..][..|es| - 2] == init[1..];
      var j := JoinTerminated(init[1..], sep);
      calc {
        JoinTerminated(es, sep);
        JoinTerminated(init, sep) + last + [sep];
        (es[0] + [sep] + j) + last + [sep];
        es[0] + [sep] + (j + last + [sep]);
        es[0] + [sep] + JoinTerminated(es[1..], sep);
      }
    }
  }

  lemma {:induction false} FieldsOfJoin(es: seq<string>, sep: char)
    requires forall k :: 0 <= k < |es| ==> sep !in es[k]
    ensures Fields(JoinTerminated(es, sep), sep) == es + [""]
    decreases |es|
  {
    if es == [] {
      assert IndexOf("", sep) == -1;
    } else {
      var rest := JoinTerminated(es[1..], sep);
      assert sep !in es[0];
      JoinTerminatedFront(es, sep);
      FieldsCons(es[0], sep, rest);
      FieldsOfJoin(es[1..], sep);
      assert Fields(JoinTerminated(es, sep), sep) == [es[0]] + (es[1..] + [""]);
      assert [es[0]] + (es[1..] + [""]) == es + [""];
    }
  }

  /**
   * Splitting the comma-terminated join of a non-empty list gives the list
   * back, provided no element holds the separator and the last is not empty.
   */
  lemma SplitOfJoin(es: seq<string>, sep: char)
    requires es != []
    requires forall k :: 0 <= k < |es| ==> sep !in es[k]
    requires es[|es| - 1] != ""
    ensures Split(JoinTerminated(es, sep), sep) == es
  {
    var s := JoinTerminated(es, sep);
    assert s[|s| - 1] == sep;
    FieldsOfJoin(es, sep);
    var fs := es + [""];
    var r := DropTrailingEmpty(fs);
    assert DropTrailingEmpty(fs) == DropTrailingEmpty(fs[..|fs| - 1]);
    assert fs[..|fs| - 1] == es;
  }
}
