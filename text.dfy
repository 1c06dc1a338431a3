/** Character and string operations that the JavaScript and Python sources
    call on their strings (`toUpperCase`, `upper`, `isalnum`, `trim`, `strip`,
    `split`, `startsWith`), with ASCII semantics. */
module Text {

  /** 'a'..'z' are mapped to 'A'..'Z'; every other character is kept. */
  function UpperChar(c: char): char
  {
    if 'a' <= c <= 'z' then (c as int - 32) as char else c
  }

  /** `s.toUpperCase()` in JavaScript, `s.upper()` in Python. */
  function Upper(s: string): (r: string)
    ensures |r| == |s|
    ensures forall i :: 0 <= i < |s| ==> r[i] == UpperChar(s[i])
  {
    seq(|s|, i requires 0 <= i < |s| => UpperChar(s[i]))
  }

  lemma UpperIdempotent(s: string)
    ensures Upper(Upper(s)) == Upper(s)
  {
  }

  predicate IsAlnum(c: char)
  {
    ('a' <= c <= 'z') || ('A' <= c <= 'Z') || ('0' <= c <= '9')
  }

  /** JavaScript's `trim` whitespace restricted to ASCII: space, tab, line
      feed, vertical tab, form feed, carriage return. */
  predicate IsJsSpace(c: char)
  {
    c == ' ' || ('\t' <= c <= '\r')
  }

  /** Python's `str.isspace` restricted to ASCII: the JavaScript set plus
      the four separator characters 0x1C..0x1F. */
  predicate IsPySpace(c: char)
  {
    IsJsSpace(c) || (28 as char <= c <= 31 as char)
  }

  function TrimStart(s: string, ws: char -> bool): (r: string)
    ensures |r| <= |s| && r == s[|s| - |r|..]
    ensures forall i :: 0 <= i < |s| - |r| ==> ws(s[i])
    ensures r != [] ==> !ws(r[0])
  {
    if |s| > 0 && ws(s[0]) then TrimStart(s[1..], ws) else s
  }

  function TrimEnd(s: string, ws: char -> bool): (r: string)
    ensures |r| <= |s| && r == s[..|r|]
    ensures forall i :: |r| <= i < |s| ==> ws(s[i])
    ensures r != [] ==> !ws(r[|r| - 1])
  {
    if |s| > 0 && ws(s[|s| - 1]) then TrimEnd(s[..|s| - 1], ws) else s
  }

  /** Removes leading and trailing whitespace (`trim` / `strip`). */
  function Trim(s: string, ws: char -> bool): string
  {
    TrimEnd(TrimStart(s, ws), ws)
  }

  /** A property of every character of `s` holds for every character of
      its trimmed form. */
  lemma TrimKeeps(s: string, ws: char -> bool, p: char -> bool)
    requires forall i :: 0 <= i < |s| ==> p(s[i])
    ensures forall i :: 0 <= i < |Trim(s, ws)| ==> p(Trim(s, ws)[i])
  {
    var t := TrimStart(s, ws);
    var u := TrimEnd(t, ws);
    var k := |s| - |t|;
    assert t == s[k..] && u == t[..|u|];
    forall i | 0 <= i < |u| ensures p(u[i]) {
      assert u[i] == t[i] == s[k + i];
    }
  }

  /** The trimmed string is empty exactly when every character of `s` is
      whitespace. */
  lemma TrimEmptyIff(s: string, ws: char -> bool)
    ensures Trim(s, ws) == [] <==> forall i :: 0 <= i < |s| ==> ws(s[i])
  {
    var t := TrimStart(s, ws);
    var u := TrimEnd(t, ws);
    assert Trim(s, ws) == u;
    if u != [] {
      assert !ws(u[0]);
      assert u[0] == t[0];
      assert t[0] == s[|s| - |t|];
    }
  }

  /** A non-empty trimmed string starts and ends with a non-whitespace
      character. */
  lemma TrimEnds(s: string, ws: char -> bool)
    requires Trim(s, ws) != []
    ensures !ws(Trim(s, ws)[0]) && !ws(Trim(s, ws)[|Trim(s, ws)| - 1])
  {
    var t := TrimStart(s, ws);
    var u := TrimEnd(t, ws);
    assert u[0] == t[0];
  }

  /** Trimming twice is trimming once. */
  lemma TrimIdempotent(s: string, ws: char -> bool)
    ensures Trim(Trim(s, ws), ws) == Trim(s, ws)
  {
    var t := Trim(s, ws);
    TrimEmptyIff(s, ws);
    if t != [] {
      TrimEnds(s, ws);
      assert TrimStart(t, ws) == t;
      assert TrimEnd(t, ws) == t;
    }
  }

  predicate StartsWith(s: string, prefix: string)
  {
    |prefix| <= |s| && s[..|prefix|] == prefix
  }

  /** `s.split(sep)` in JavaScript: the pieces between occurrences of `sep`,
      empty pieces included; splitting "" gives [""]. */
  function Split(s: string, sep: char): (r: seq<string>)
    ensures |r| >= 1
    decreases |s|
  {
    if |s| == 0 then [""]
    else
      var rest := Split(s[1..], sep);
      if s[0] == sep then [""] + rest else [[s[0]] + rest[0]] + rest[1..]
  }

  /** Pieces joined back with the separator. */
  function Join(pieces: seq<string>, sep: char): string
  {
    if |pieces| == 0 then ""
    else if |pieces| == 1 then pieces[0]
    else pieces[0] + [sep] + Join(pieces[1..], sep)
  }

  /** `Split` loses nothing: joining its pieces gives the input back. */
  lemma {:induction false} SplitJoin(s: string, sep: char)
    ensures Join(Split(s, sep), sep) == s
    decreases |s|
  {
    if |s| > 0 {
      var rest := Split(s[1..], sep);
      SplitJoin(s[1..], sep);
      assert s == [s[0]] + s[1..];
      if s[0] == sep {
        assert Split(s, sep) == [""] + rest;
        assert ([""] + rest)[1..] == rest;
      } else {
        var r := Split(s, sep);
        assert r == [[s[0]] + rest[0]] + rest[1..];
        if |rest| > 1 {
          assert r[1..] == rest[1..];
        }
      }
    }
  }

  /** No piece of `Split` contains the separator. */
  lemma {:induction false} SplitPiecesSeparatorFree(s: string, sep: char)
    ensures forall k, i :: 0 <= k < |Split(s, sep)| && 0 <= i < |Split(s, sep)[k]| ==> Split(s, sep)[k][i] != sep
    decreases |s|
  {
    if |s| > 0 {
      var rest := Split(s[1..], sep);
      SplitPiecesSeparatorFree(s[1..], sep);
      var r := Split(s, sep);
      if s[0] == sep {
        assert r == [""] + rest;
      } else {
        assert r == [[s[0]] + rest[0]] + rest[1..];
        forall k, i | 0 <= k < |r| && 0 <= i < |r[k]| ensures r[k][i] != sep {
          if k == 0 {
            if i > 0 { assert r[0][i] == rest[0][i - 1]; }
          } else {
            assert r[k] == rest[k];
          }
        }
      }
    }
  }
}
