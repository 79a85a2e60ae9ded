/**
 * The avatar of the hero section: the profile image when one is set,
 * otherwise the initials of the name, computed as
 * `name.split(/\s+/).map(w => w[0]).join('').slice(0, 2).toUpperCase()`.
 */
module Hero {
  import opened Wrappers
  import opened JsString

  /** Length of the longest prefix of `s` without white space. */
  function WordLength(s: string): (n: nat)
    ensures n <= |s|
    ensures forall k | 0 <= k < n :: !IsSpace(s[k])
    ensures n < |s| ==> IsSpace(s[n])
  {
    if s == [] || IsSpace(s[0]) then 0 else 1 + WordLength(s[1..])
  }

  /** Length of the longest prefix of `s` made of white space. */
  function GapLength(s: string): (n: nat)
    ensures n <= |s|
    ensures forall k | 0 <= k < n :: IsSpace(s[k])
    ensures n < |s| ==> !IsSpace(s[n])
  {
    if s == [] || !IsSpace(s[0]) then 0 else 1 + GapLength(s[1..])
  }

  /**
   * `s.split(/\s+/)`: the pieces between maximal runs of white space. A
   * leading or trailing run yields an empty first or last piece, and the
   * empty string yields one empty piece.
   */
  function Split(s: string): (words: seq<string>)
    ensures |words| >= 1
    decreases |s|
  {
    var i := WordLength(s);
    if i == |s| then [s]
    else
      var j := i + GapLength(s[i..]);
      [s[..i]] + Split(s[j..])
  }

  /** No piece of a split contains white space. */
  lemma {:induction false} SplitPiecesHaveNoSpace(s: string)
    ensures forall w | w in Split(s) :: forall k | 0 <= k < |w| :: !IsSpace(w[k])
    decreases |s|
  {
    var i := WordLength(s);
    if i < |s| {
      var j := i + GapLength(s[i..]);
      SplitPiecesHaveNoSpace(s[j..]);
      assert Split(s) == [s[..i]] + Split(s[j..]);
    }
  }

  /** `w[0]` joined by `join('')`: an empty word gives `undefined`, which joins as nothing. */
  function FirstChar(w: string): string {
    if w == "" then "" else [w[0]]
  }

  function FirstChars(words: seq<string>): string {
    if words == [] then "" else FirstChar(words[0]) + FirstChars(words[1..])
  }

  /** `slice(0, 2)`. */
  function Take2(s: string): (r: string)
    ensures |r| <= 2 && |r| <= |s| && r == s[..|r|]
    ensures |s| >= 2 ==> |r| == 2
    ensures |s| < 2 ==> r == s
  {
    if |s| <= 2 then s else s[..2]
  }

  /** `toUpperCase` on ASCII: `a`-`z` become `A`-`Z`; other characters are kept. */
  function UpperAscii(c: char): char {
    if 'a' <= c <= 'z' then (c as int - 32) as char else c
  }

  function Upper(s: string): (r: string)
    ensures |r| == |s|
    ensures forall k | 0 <= k < |s| :: r[k] == UpperAscii(s[k])
  {
    if s == [] then "" else [UpperAscii(s[0])] + Upper(s[1..])
  }

  /** The initials expression. */
  function Initials(name: string): (r: string)
    ensures |r| <= 2
  {
    Upper(Take2(FirstChars(Split(name))))
  }

  /**
   * Reference definition, independent of splitting: the characters of `s`
   * that begin a word, i.e. are not white space and follow white space or
   * the start of the text (`atStart`).
   */
  function WordStarts(s: string, atStart: bool): string {
    if s == [] then ""
    else (if atStart && !IsSpace(s[0]) then [s[0]] else "") + WordStarts(s[1..], IsSpace(s[0]))
  }

  /** Word starts are characters of the text and are never white space. */
  lemma {:induction false} WordStartsAreNonBlank(s: string, atStart: bool)
    ensures forall c | c in WordStarts(s, atStart) :: c in s && !IsSpace(c)
  {
    if s != [] {
      WordStartsAreNonBlank(s[1..], IsSpace(s[0]));
      assert forall c | c in s[1..] :: c in s;
    }
  }

  /** Walking over a word: only its first character can be a word start. */
  lemma {:induction false} WordStartsOverWord(s: string, k: nat, atStart: bool)
    requires 0 < k <= |s|
    requires forall m | 0 <= m < k :: !IsSpace(s[m])
    ensures WordStarts(s, atStart) == (if atStart then [s[0]] else "") + WordStarts(s[k..], false)
  {
    if k > 1 {
      WordStartsOverWord(s[1..], k - 1, false);
      assert s[1..][k - 1..] == s[k..];
    }
  }

  /** Walking over white space: nothing is a word start, and the next character starts a word. */
  lemma {:induction false} WordStartsOverGap(s: string, k: nat, atStart: bool)
    requires 0 < k <= |s|
    requires forall m | 0 <= m < k :: IsSpace(s[m])
    ensures WordStarts(s, atStart) == WordStarts(s[k..], true)
  {
    if k > 1 {
      WordStartsOverGap(s[1..], k - 1, true);
      assert s[1..][k - 1..] == s[k..];
    }
  }

  /** A word of length `i` followed by a gap of length `g`: only the word's first character is a word start. */
  lemma WordThenGap(s: string, i: nat, g: nat)
    requires i + g <= |s| && g > 0
    requires forall m | 0 <= m < i :: !IsSpace(s[m])
    requires forall m | 0 <= m < g :: IsSpace(s[i..][m])
    ensures WordStarts(s, true) == FirstChar(s[..i]) + WordStarts(s[i + g..], true)
  {
    assert s[i..][g..] == s[i + g..];
    WordStartsOverGap(s[i..], g, i == 0);
    if i > 0 {
      WordStartsOverWord(s, i, true);
    } else {
      assert s[i..] == s;
    }
  }

  /** The split-and-take-first-characters chain picks exactly the word starts, in order. */
  lemma {:induction false} FirstCharsAreWordStarts(s: string)
    ensures FirstChars(Split(s)) == WordStarts(s, true)
    decreases |s|
  {
    var i := WordLength(s);
    if i == |s| {
      if s != [] {
        WordStartsOverWord(s, |s|, true);
        assert s[|s|..] == [];
      }
    } else {
      var g := GapLength(s[i..]);
      var rest := s[i + g..];
      var words := Split(s);
      assert words == [s[..i]] + Split(rest);
      assert words[1..] == Split(rest);
      assert FirstChars(words) == FirstChar(s[..i]) + FirstChars(Split(rest));
      FirstCharsAreWordStarts(rest);
      WordThenGap(s, i, g);
    }
  }

  /** Initials are the upper-cased first two word starts. */
  lemma InitialsAreWordStarts(name: string)
    ensures Initials(name) == Upper(Take2(WordStarts(name, true)))
  {
    FirstCharsAreWordStarts(name);
  }

  /** A blank text has no word starts. */
  lemma {:induction false} BlankHasNoWordStarts(s: string, atStart: bool)
    requires IsBlank(s)
    ensures WordStarts(s, atStart) == ""
  {
    if s != [] {
      BlankHasNoWordStarts(s[1..], true);
    }
  }

  /** An empty or white-space-only name has no initials. */
  lemma BlankNameHasNoInitials(name: string)
    requires IsBlank(name)
    ensures Initials(name) == ""
  {
    InitialsAreWordStarts(name);
    BlankHasNoWordStarts(name, true);
  }

  /** In two words separated by one space, the word starts are the two first letters. */
  lemma TwoWordStarts(first: string, last: string)
    requires first != "" && last != ""
    requires forall k | 0 <= k < |first| :: !IsSpace(first[k])
    requires forall k | 0 <= k < |last| :: !IsSpace(last[k])
    ensures WordStarts(first + " " + last, true) == [first[0], last[0]]
  {
    var name := first + " " + last;
    var i := |first|;
    forall m | 0 <= m < i ensures !IsSpace(name[m]) {
      assert name[m] == first[m];
    }
    assert name[i..][0] == ' ' && IsSpace(' ');
    assert name[..i] == first && name[i + 1..] == last;
    WordThenGap(name, i, 1);
    WordStartsOverWord(last, |last|, true);
    assert last[|last|..] == [];
  }

  /** A name of two words separated by one space gives the two upper-cased first letters. */
  lemma TwoWordInitials(first: string, last: string)
    requires first != "" && last != ""
    requires forall k | 0 <= k < |first| :: !IsSpace(first[k])
    requires forall k | 0 <= k < |last| :: !IsSpace(last[k])
    ensures Initials(first + " " + last) == [UpperAscii(first[0]), UpperAscii(last[0])]
  {
    TwoWordStarts(first, last);
    InitialsAreWordStarts(first + " " + last);
    var starts := [first[0], last[0]];
    assert Take2(starts) == starts;
    assert Upper(starts) == [UpperAscii(first[0]), UpperAscii(last[0])];
  }

  datatype Avatar = ProfileImage(src: string) | InitialsBadge(text: string)

  /** `data.profileImage?.trim() ? <img> : <initials>`. */
  function AvatarOf(profileImage: Option<string>, name: string): (r: Avatar)
    ensures r.InitialsBadge? <==> profileImage.None? || IsBlank(profileImage.value)
    ensures r.ProfileImage? ==> r.src == profileImage.value
    ensures r.InitialsBadge? ==> r.text == Initials(name)
  {
    if profileImage.Some? && Trim(profileImage.value) != "" then ProfileImage(profileImage.value)
    else InitialsBadge(Initials(name))
  }
}
