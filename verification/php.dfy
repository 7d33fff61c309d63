/** The PHP built-ins the plugin relies on.
    Number parsing, e-mail validation and number-to-text conversion are kept
    abstract: they are fields of `Runtime`, given by the caller.  trim(),
    explode(), implode(), the one-character str_replace() and the (int) cast
    of a float are written out. */
module Php {

  /** The parts of the PHP and WordPress runtime that the model takes as given. */
  datatype Runtime = Runtime(
    floatval: string -> real,        // floatval() of a text
    intval: string -> int,           // (int) cast of a text
    strval: real -> string,          // a float turned into text
    isNumeric: string -> bool,       // is_numeric()
    isEmail: string -> bool,         // WordPress is_email()
    sanitizeEmail: string -> string  // WordPress sanitize_email()
  )

  /** PHP truthiness of a string: only "" and "0" are falsy (so are null and
      false, which the model folds into ""). */
  predicate FalsyText(s: string) {
    s == "" || s == "0"
  }

  /** The characters trim() strips when no list is given. */
  predicate IsTrimmable(c: char) {
    c == ' ' || c == '\t' || c == '\n' || c == '\r' || c == '\0' || c == '\U{000B}'
  }

  function TrimLeft(s: string): (r: string)
    ensures |r| <= |s| && r == s[|s| - |r|..]
    ensures r == [] || !IsTrimmable(r[0])
    ensures forall i :: 0 <= i < |s| - |r| ==> IsTrimmable(s[i])
  {
    if s != [] && IsTrimmable(s[0]) then TrimLeft(s[1..]) else s
  }

  function TrimRight(s: string): (r: string)
    ensures |r| <= |s| && r == s[..|r|]
    ensures r == [] || !IsTrimmable(r[|r| - 1])
    ensures forall i :: |r| <= i < |s| ==> IsTrimmable(s[i])
  {
    if s != [] && IsTrimmable(s[|s| - 1]) then TrimRight(s[..|s| - 1]) else s
  }

  /** trim(): s without its leading and trailing white space. */
  function Trim(s: string): (r: string)
    ensures |r| <= |TrimLeft(s)| <= |s|
    ensures r == [] || (!IsTrimmable(r[0]) && !IsTrimmable(r[|r| - 1]))
    ensures r == TrimLeft(s)[..|r|]
    ensures forall i :: 0 <= i < |s| - |TrimLeft(s)| ==> IsTrimmable(s[i])
    ensures forall i :: |r| <= i < |TrimLeft(s)| ==> IsTrimmable(TrimLeft(s)[i])
  {
    TrimRight(TrimLeft(s))
  }

  /** explode(sep, s): the pieces of s between the occurrences of sep.
      Like PHP, an empty s gives one empty piece. */
  function Explode(sep: char, s: string): (parts: seq<string>)
    ensures parts != []
    ensures forall p :: p in parts ==> sep !in p
    decreases |s|
  {
    if s == [] then [""]
    else
      var rest := Explode(sep, s[1..]);
      if s[0] == sep then [""] + rest else [[s[0]] + rest[0]] + rest[1..]
  }

  /** implode(sep, parts). */
  function Implode(sep: char, parts: seq<string>): string
  {
    if parts == [] then ""
    else if |parts| == 1 then parts[0]
    else parts[0] + [sep] + Implode(sep, parts[1..])
  }

  /** Putting the first piece of a list behind a character puts it in front of the joined text. */
  lemma {:induction false} ImplodeConsFirst(sep: char, c: char, parts: seq<string>)
    requires parts != []
    ensures Implode(sep, [[c] + parts[0]] + parts[1..]) == [c] + Implode(sep, parts)
  {
    var q := [[c] + parts[0]] + parts[1..];
    assert q[1..] == parts[1..];
  }

  /** Joining the pieces of explode() with the same separator gives the text back. */
  lemma {:induction false} ImplodeExplode(sep: char, s: string)
    ensures Implode(sep, Explode(sep, s)) == s
    decreases |s|
  {
    if s != [] {
      var rest := Explode(sep, s[1..]);
      ImplodeExplode(sep, s[1..]);
      if s[0] == sep {
        var parts := [""] + rest;
        assert parts[1..] == rest;
        assert Implode(sep, parts) == "" + [sep] + Implode(sep, rest);
      } else {
        ImplodeConsFirst(sep, s[0], rest);
      }
      assert s == [s[0]] + s[1..];
    }
  }

  /** A text without the separator glues onto the first piece of what follows. */
  lemma {:induction false} ExplodePrefix(sep: char, x: string, s: string)
    requires sep !in x
    ensures Explode(sep, x + s) == [x + Explode(sep, s)[0]] + Explode(sep, s)[1..]
    decreases |x|
  {
    var e := Explode(sep, s);
    if x != [] {
      assert (x + s)[0] == x[0] != sep;
      assert (x + s)[1..] == x[1..] + s;
      ExplodePrefix(sep, x[1..], s);
      var rest := Explode(sep, x[1..] + s);
      assert rest == [x[1..] + e[0]] + e[1..];
      assert Explode(sep, x + s) == [[x[0]] + rest[0]] + rest[1..];
      assert [x[0]] + (x[1..] + e[0]) == x + e[0];
    } else {
      assert x + s == s;
      assert x + e[0] == e[0];
      assert [e[0]] + e[1..] == e;
    }
  }

  /** Splitting the joined text of separator-free pieces gives the pieces back. */
  lemma {:induction false} ExplodeImplode(sep: char, parts: seq<string>)
    requires parts != []
    requires forall p :: p in parts ==> sep !in p
    ensures Explode(sep, Implode(sep, parts)) == parts
    decreases |parts|
  {
    if |parts| == 1 {
      ExplodePrefix(sep, parts[0], "");
      assert parts[0] + "" == parts[0];
    } else {
      var rest := parts[1..];
      assert forall p :: p in rest ==> p in parts;
      ExplodeImplode(sep, rest);
      var tail := [sep] + Implode(sep, rest);
      assert parts[0] + [sep] + Implode(sep, rest) == parts[0] + tail;
      ExplodePrefix(sep, parts[0], tail);
      assert tail[1..] == Implode(sep, rest);
      assert Explode(sep, tail) == [""] + rest;
      assert Implode(sep, parts) == parts[0] + tail;
      assert parts[0] + "" == parts[0];
      assert parts == [parts[0]] + rest;
    }
  }

  /** str_replace(from, to, s) for one-character from and to. */
  function ReplaceChar(s: string, from: char, to: char): (r: string)
    ensures |r| == |s|
    ensures from != to ==> from !in r
    ensures forall i :: 0 <= i < |s| && s[i] != from ==> r[i] == s[i]
    ensures forall i :: 0 <= i < |s| && s[i] == from ==> r[i] == to
    ensures from !in s ==> r == s
  {
    seq(|s|, i requires 0 <= i < |s| => if s[i] == from then to else s[i])
  }

  /** The (int) cast of a float: truncation toward zero. */
  function TruncateToInt(x: real): (i: int)
    ensures x >= 0.0 ==> 0 <= i && i as real <= x < i as real + 1.0
    ensures x < 0.0 ==> i <= 0 && i as real - 1.0 < x <= i as real
  {
    if x >= 0.0 then x.Floor else -((-x).Floor)
  }
}
