/** The avatar initials of the dashboard's side menu. */
module Menu {
  import opened Wrappers
  import opened Text

  /** `n[0]` joined into a string: the first character of a piece, or
      nothing for an empty piece (`undefined` joins as ""). */
  function First(piece: string): (r: string)
    ensures |r| <= 1 && (piece != "" ==> r == [piece[0]])
  {
    if piece == "" then "" else [piece[0]]
  }

  /** `.map((n) => n[0]).join("")`. */
  function Heads(pieces: seq<string>): (r: string)
    ensures |r| <= |pieces|
  {
    if pieces == [] then "" else First(pieces[0]) + Heads(pieces[1..])
  }

  /** A reference definition of the word starts of `s`: every character that
      is not a space and follows a space or the start of the string (when
      `atStart` holds), in order. */
  function StartsFrom(s: string, atStart: bool): string
  {
    if |s| == 0 then ""
    else if s[0] == ' ' then StartsFrom(s[1..], true)
    else (if atStart then [s[0]] else "") + StartsFrom(s[1..], false)
  }

  function WordStarts(s: string): string
  {
    StartsFrom(s, true)
  }

  /** The heads of the space-separated pieces are the word starts; the
      heads of all pieces but the first are the word starts after the first
      space. */
  lemma {:induction false} HeadsOfSplit(s: string)
    ensures Heads(Split(s, ' ')) == StartsFrom(s, true)
    ensures Heads(Split(s, ' ')[1..]) == StartsFrom(s, false)
    decreases |s|
  {
    if |s| > 0 {
      var rest := Split(s[1..], ' ');
      HeadsOfSplit(s[1..]);
      if s[0] == ' ' {
        assert Split(s, ' ') == [""] + rest;
        assert ([""] + rest)[1..] == rest;
        assert Heads([""] + rest) == Heads(rest);
      } else {
        var p := [[s[0]] + rest[0]] + rest[1..];
        assert Split(s, ' ') == p;
        assert p[1..] == rest[1..];
        assert Heads(p) == [s[0]] + Heads(rest[1..]);
      }
    }
  }

  /** A second space between two parts of a name starts no word. */
  lemma {:induction false} ExtraSpaceIgnored(s: string, t: string, atStart: bool)
    ensures StartsFrom(s + "  " + t, atStart) == StartsFrom(s + " " + t, atStart)
    decreases |s|
  {
    if s == [] {
      assert (s + "  " + t)[1..] == " " + t;
      assert (" " + t)[1..] == t;
      assert s + " " + t == " " + t;
    } else {
      assert (s + "  " + t)[0] == s[0] && (s + " " + t)[0] == s[0];
      assert (s + "  " + t)[1..] == s[1..] + "  " + t;
      assert (s + " " + t)[1..] == s[1..] + " " + t;
      ExtraSpaceIgnored(s[1..], t, true);
      ExtraSpaceIgnored(s[1..], t, false);
    }
  }

  /** The displayed name: the stored name, or "User" when it is missing or
      empty. */
  function DisplayName(name: Option<string>): (r: string)
    ensures r != ""
    ensures name.Some? && name.value != "" ==> r == name.value
    ensures name.None? || name.value == "" ==> r == "User"
  {
    if name.Some? && name.value != "" then name.value else "User"
  }

  /** `userInitials`. */
  function Initials(name: Option<string>): (r: string)
    ensures |r| == Min(2, |WordStarts(DisplayName(name))|)
    ensures r == Upper(WordStarts(DisplayName(name)))[..|r|]
  {
    var joined := Heads(Split(DisplayName(name), ' '));
    HeadsOfSplit(DisplayName(name));
    Upper(joined)[..Min(2, |joined|)]
  }

  /** A missing or empty name shows "U". */
  lemma DefaultInitial(name: Option<string>)
    requires name.None? || name.value == ""
    ensures Initials(name) == "U"
  {
    assert DisplayName(name) == "User";
    assert "User"[1..] == "ser" && "ser"[1..] == "er" && "er"[1..] == "r" && "r"[1..] == "";
    assert StartsFrom("User", true) == "U";
  }

  /** Consecutive spaces yield empty pieces, which add no initial. */
  lemma DoubleSpaceSameInitials(s: string, t: string)
    ensures Initials(Some(s + "  " + t)) == Initials(Some(s + " " + t))
  {
    assert DisplayName(Some(s + "  " + t)) == s + "  " + t;
    assert DisplayName(Some(s + " " + t)) == s + " " + t;
    ExtraSpaceIgnored(s, t, true);
  }
}
