/** The avatar: initials derived from a name, and a colour picked by the name's length. */
module Avatar {
  import opened Wrappers
  import opened Strings
  import opened Sequences

  /** String.prototype.split(" "): the pieces between single spaces; there is always at least one. */
  function Split(s: string): (r: seq<string>)
    ensures |r| >= 1
    ensures forall k :: 0 <= k < |r| ==> ' ' !in r[k]
  {
    if s == [] then [""]
    else
      var rest := Split(s[1..]);
      if s[0] == ' ' then [""] + rest
      else [[s[0]] + rest[0]] + rest[1..]
  }

  /** Array.prototype.join(" "). */
  function Join(parts: seq<string>): string {
    if |parts| == 0 then ""
    else if |parts| == 1 then parts[0]
    else parts[0] + " " + Join(parts[1..])
  }

  /** Splitting on spaces loses nothing: joining the pieces with spaces gives back the name. */
  lemma {:induction false} SplitJoinRoundTrip(s: string)
    ensures Join(Split(s)) == s
  {
    if s != [] {
      var rest := Split(s[1..]);
      SplitJoinRoundTrip(s[1..]);
      assert s == [s[0]] + s[1..];
      if s[0] == ' ' {
        assert ([""] + rest)[1..] == rest;
      } else {
        var r := [[s[0]] + rest[0]] + rest[1..];
        assert r[1..] == rest[1..];
      }
    }
  }

  /**
   * `.map((n) => n[0]).join("")`: the first character of each piece. An empty
   * piece yields undefined, which joins as the empty string.
   */
  function FirstLetters(parts: seq<string>): (r: string)
    ensures |r| <= |parts|
  {
    if parts == [] then ""
    else (if parts[0] == [] then "" else [parts[0][0]]) + FirstLetters(parts[1..])
  }

  /** Empty pieces, from leading, trailing or repeated spaces, contribute nothing. */
  lemma {:induction false} EmptyPiecesContributeNothing(parts: seq<string>)
    ensures FirstLetters(parts) == FirstLetters(Filter(parts, (p: string) => p != []))
  {
    if parts != [] {
      EmptyPiecesContributeNothing(parts[1..]);
      assert parts == [parts[0]] + parts[1..];
      FilterCons(parts[0], parts[1..], (p: string) => p != []);
      var rest := Filter(parts[1..], (p: string) => p != []);
      if parts[0] != [] {
        var f := [parts[0]] + rest;
        assert f[0] == parts[0] && f[1..] == rest;
      } else {
        assert Filter(parts, (p: string) => p != []) == rest;
      }
    }
  }

  /**
   * The characters that begin a word: a non-space character at the start of
   * the text (when `afterSpace`) or right after a space.
   */
  function WordStarts(s: string, afterSpace: bool): string {
    if s == [] then ""
    else (if afterSpace && s[0] != ' ' then [s[0]] else "") + WordStarts(s[1..], s[0] == ' ')
  }

  /** The first letters of the pieces are exactly the word-start characters of the name. */
  lemma {:induction false} FirstLettersAreWordStarts(s: string)
    ensures FirstLetters(Split(s)) == WordStarts(s, true)
    ensures FirstLetters(Split(s)[1..]) == WordStarts(s, false)
  {
    if s != [] {
      var rest := Split(s[1..]);
      FirstLettersAreWordStarts(s[1..]);
      if s[0] == ' ' {
        assert ([""] + rest)[1..] == rest;
      } else {
        var r := [[s[0]] + rest[0]] + rest[1..];
        assert r[1..] == rest[1..];
      }
    }
  }

  /** `.slice(0, 2)`: the first two characters, or the whole string when it is shorter. */
  function Take2(s: string): (r: string)
    ensures |r| <= 2 && r <= s
    ensures |r| == if |s| < 2 then |s| else 2
  {
    if |s| <= 2 then s else s[..2]
  }

  /** The avatar's initials: word-start characters, upper-cased, at most two. */
  function Initials(name: string): (r: string)
    ensures |r| <= 2
  {
    Take2(Upper(FirstLetters(Split(name))))
  }

  /** The initials are the first two word-start characters, upper-cased. */
  lemma InitialsAreWordStarts(name: string)
    ensures Initials(name) == Take2(Upper(WordStarts(name, true)))
  {
    FirstLettersAreWordStarts(name);
  }

  /** Two words give their two upper-cased first letters. */
  lemma InitialsExample()
    ensures Initials("John Doe") == "JD"
  {
    InitialsAreWordStarts("John Doe");
    JohnDoeWordStarts();
    UpperOfJD();
    assert Take2("JD") == "JD";
  }

  lemma UpperOfJD()
    ensures Upper("JD") == "JD"
  {
    assert UpperChar('J') == 'J' && UpperChar('D') == 'D';
  }

  lemma JohnDoeWordStarts()
    ensures WordStarts("John Doe", true) == "JD"
  {
    assert WordStarts("oe", false) == "";
    assert WordStarts("Doe", true) == "D";
    assert WordStarts(" Doe", false) == "D";
    assert WordStarts("n Doe", false) == "D";
    assert WordStarts("hn Doe", false) == "D";
    assert WordStarts("ohn Doe", false) == "D";
  }

  const COLORS: seq<string> := [
    "bg-blue-100 text-blue-700",
    "bg-green-100 text-green-700",
    "bg-yellow-100 text-yellow-700",
    "bg-red-100 text-red-700",
    "bg-purple-100 text-purple-700",
    "bg-pink-100 text-pink-700",
    "bg-indigo-100 text-indigo-700"
  ]

  /**
   * The name's length (UTF-16 code units) modulo the number of colours:
   * always a valid index, and for a name without astral characters the
   * character count modulo seven.
   */
  function ColorIndex(name: string): (i: nat)
    ensures i < |COLORS|
    ensures (forall k :: 0 <= k < |name| ==> name[k] as int <= 0xFFFF) ==> i == |name| % 7
  {
    JsLength(name) % |COLORS|
  }

  /** What the avatar shows. */
  datatype Face = Image(src: string, alt: string) | Badge(initials: string, colorClass: string)

  /** An image when a non-empty URL is given; otherwise the initials on the name's colour. */
  function AvatarFace(name: string, imageUrl: Option<string>): (f: Face)
    ensures f.Image? <==> imageUrl.Some? && imageUrl.value != ""
    ensures f.Image? ==> f.src == imageUrl.value && f.alt == name
    ensures f.Badge? ==> f.initials == Initials(name) && f.colorClass == COLORS[ColorIndex(name)]
    ensures f.Badge? ==> |f.initials| <= 2 && f.colorClass in COLORS
  {
    if imageUrl.Some? && imageUrl.value != "" then Image(imageUrl.value, name)
    else Badge(Initials(name), COLORS[ColorIndex(name)])
  }
}
