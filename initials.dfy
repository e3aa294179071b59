/** The avatar initials shown when a profile has no picture. The same
    `getInitials` code appears in the comment list, the post card and the
    header; this module holds it once. */
module Initials {
  import opened Wrappers
  import opened Text
  import opened SocialApi

  /** `getInitials`: "?" for an empty name; otherwise one character per
      end word of the trimmed name, upper-cased: one when the name holds no
      space, two when it does (see `InitialsOfOneWord` and
      `InitialsOfSeveralWords`, `InitialsIgnorePadding`). A name that is not empty but trims to
      nothing makes the original code index an empty string and throw,
      hence the precondition. */
  function GetInitials(name: string): (r: string)
    requires Drawable(name)
    ensures |name| == 0 ==> r == "?"
    ensures |name| > 0 ==> |r| == if ' ' in Trim(name) then 2 else 1
    ensures |name| > 0 ==> 1 <= |r| <= 2
    ensures forall i :: 0 <= i < |r| ==> !('a' <= r[i] <= 'z')
  {
    if |name| == 0 then "?" else InitialsOfTrimmed(Trim(name))
  }

  /** The names `getInitials` does not throw on: the empty name, or one
      with something besides white space. */
  predicate Drawable(name: string) {
    |name| == 0 || |Trim(name)| > 0
  }

  /** The part of `getInitials` after `trim`: split at single spaces and
      take the first character of the first and of the last piece. */
  function InitialsOfTrimmed(t: string): (r: string)
    requires |t| > 0 && IsTrimmed(t)
    ensures |r| == if ' ' in t then 2 else 1
    ensures forall i :: 0 <= i < |r| ==> !('a' <= r[i] <= 'z')
  {
    var names := Split(t, ' ');
    FirstWordOf(t);
    LastWordOf(t);
    if |names| == 1 then ToUpper([names[0][0]])
    else ToUpper([names[0][0], LastWord(names)[0]])
  }

  /** The initials of a trimmed name in terms of its pieces: the first
      character of the first piece, then, when there are several, the first
      character of the last one, each upper-cased. */
  lemma InitialsOfTrimmedPieces(t: string)
    requires |t| > 0 && IsTrimmed(t)
    ensures var names := Split(t, ' ');
      && |names[0]| > 0 && |LastWord(names)| > 0
      && InitialsOfTrimmed(t) ==
        if |names| == 1 then [UpperChar(names[0][0])]
        else [UpperChar(names[0][0]), UpperChar(LastWord(names)[0])]
  {
    var names := Split(t, ' ');
    FirstWordOf(t);
    LastWordOf(t);
    if |names| == 1 {
      UpperOne(names[0][0]);
    } else {
      UpperTwo(names[0][0], LastWord(names)[0]);
    }
  }

  lemma UpperOne(a: char)
    ensures ToUpper([a]) == [UpperChar(a)]
  {
  }

  lemma UpperTwo(a: char, b: char)
    ensures ToUpper([a, b]) == [UpperChar(a), UpperChar(b)]
  {
  }

  /** The initials of a name are those of its trimmed form. */
  lemma InitialsOfName(name: string)
    requires |Trim(name)| > 0
    ensures GetInitials(name) == InitialsOfTrimmed(Trim(name))
  {
  }

  /** A one-word name gives its upper-cased first character. */
  lemma InitialsOfOneWord(name: string)
    requires |Trim(name)| > 0 && ' ' !in Trim(name)
    ensures GetInitials(name) == [UpperChar(Trim(name)[0])]
  {
    var t := Trim(name);
    InitialsOfName(name);
    InitialsOfTrimmedPieces(t);
    FirstWordOf(t);
  }

  /** A name with several words and no white space around it gives the
      upper-cased first characters of its first word and of the word after
      its last space (white space around a name changes nothing, see
      `InitialsIgnorePadding`). */
  lemma InitialsOfSeveralWords(name: string)
    requires |name| > 0 && IsTrimmed(name) && LastIndexOf(name, ' ').Some?
    ensures var k := LastIndexOf(name, ' ').value;
      k + 1 < |name| && GetInitials(name) == [UpperChar(name[0]), UpperChar(name[k + 1])]
  {
    var g := GetInitials(name);
    assert g == InitialsOfTrimmed(name) by {
      TrimOfTrimmed(name);
    }
    InitialsOfSeveralTrimmed(g, name);
  }

  /** The same for an already trimmed name `t` whose initials are `g`. */
  lemma InitialsOfSeveralTrimmed(g: string, t: string)
    requires |t| > 0 && IsTrimmed(t) && LastIndexOf(t, ' ').Some?
    requires g == InitialsOfTrimmed(t)
    ensures var k := LastIndexOf(t, ' ').value;
      k + 1 < |t| && g == [UpperChar(t[0]), UpperChar(t[k + 1])]
  {
    var names := Split(t, ' ');
    assert |names| > 1 by {
      SeveralPieces(t, ' ');
    }
    assert InitialsOfTrimmed(t) == [UpperChar(names[0][0]), UpperChar(LastWord(names)[0])] by {
      InitialsOfTrimmedPieces(t);
    }
    assert names[0][0] == t[0] by {
      FirstWordOf(t);
    }
    LastWordOf(t);
  }

  /** The first word of a name that does not start with white space is not
      empty and starts the name. */
  lemma FirstWordOf(t: string)
    requires |t| > 0 && !IsWhitespace(t[0])
    ensures |Split(t, ' ')[0]| > 0 && Split(t, ' ')[0][0] == t[0]
  {
    SplitFirst(t, ' ');
    if IndexOf(t, ' ').Some? {
      assert IndexOf(t, ' ').value != 0;
    }
  }

  /** The last word of a name that does not end with white space is not
      empty and starts right after the last space. */
  lemma LastWordOf(t: string)
    requires |t| > 0 && !IsWhitespace(t[|t| - 1])
    ensures |LastWord(Split(t, ' '))| > 0
    ensures LastIndexOf(t, ' ').Some? ==>
      LastIndexOf(t, ' ').value + 1 < |t| &&
      LastWord(Split(t, ' '))[0] == t[LastIndexOf(t, ' ').value + 1]
  {
    if LastIndexOf(t, ' ').Some? {
      LastWordAfterSpace(t);
    } else {
      SplitWithoutSeparator(t, ' ');
    }
  }

  lemma LastWordAfterSpace(t: string)
    requires |t| > 0 && !IsWhitespace(t[|t| - 1]) && LastIndexOf(t, ' ').Some?
    ensures var k := LastIndexOf(t, ' ').value;
      k + 1 < |t| && LastWord(Split(t, ' ')) == t[k + 1..]
  {
    assert t[|t| - 1] != ' ';
    LastPieceAfter(t, ' ');
  }

  lemma LastPieceAfter(t: string, sep: char)
    requires |t| > 0 && t[|t| - 1] != sep && LastIndexOf(t, sep).Some?
    ensures var k := LastIndexOf(t, sep).value;
      k + 1 < |t| && LastWord(Split(t, sep)) == t[k + 1..]
  {
    SplitLast(t, sep);
  }

  function LastWord(names: seq<string>): string
    requires |names| >= 1
  {
    names[|names| - 1]
  }

  /** What an avatar circle shows: the picture, or the initials in its place. */
  datatype Avatar = Picture(url: string) | Letters(text: string)

  /** `profiles?.name || ''`: the author's name, or the empty name when the
      post or comment has no joined author. */
  function AuthorName(author: Option<Author>): (r: string)
    ensures author.None? ==> |r| == 0
    ensures author.Some? ==> r == author.value.name
  {
    if author.Some? then author.value.name else ""
  }

  predicate HasPicture(author: Option<Author>) {
    author.Some? && Truthy(author.value.avatarUrl)
  }

  /** The avatar of a post or of a comment: the author's picture when there
      is one, otherwise the initials of the author's name, which are "?"
      when there is no author or no name. */
  function AuthorAvatar(author: Option<Author>): (r: Avatar)
    requires HasPicture(author) || Drawable(AuthorName(author))
    ensures r.Picture? <==> HasPicture(author)
    ensures r.Picture? ==> r.url == author.value.avatarUrl.value
    ensures r.Letters? && |AuthorName(author)| == 0 ==> r.text == "?"
    ensures r.Letters? ==> r.text == GetInitials(AuthorName(author))
    ensures r.Letters? && |AuthorName(author)| > 0 ==> 1 <= |r.text| <= 2
  {
    if HasPicture(author) then Picture(author.value.avatarUrl.value)
    else Letters(GetInitials(AuthorName(author)))
  }

  /** White space around a name never changes its initials, because the
      name is trimmed first. */
  lemma InitialsIgnorePadding(w1: string, name: string, w2: string)
    requires AllWhitespace(w1) && AllWhitespace(w2)
    requires |Trim(name)| > 0
    ensures |Trim(w1 + name + w2)| > 0
    ensures GetInitials(w1 + name + w2) == GetInitials(name)
  {
    TrimIgnoresPadding(w1, name, w2);
  }

  /** A name made of words separated by single spaces: one word gives its
      upper-cased first letter, several give the upper-cased first letters
      of the first and of the last word. */
  lemma InitialsOfWords(words: seq<string>)
    requires |words| >= 1
    requires forall k :: 0 <= k < |words| ==> |words[k]| > 0
    requires forall k, i :: 0 <= k < |words| && 0 <= i < |words[k]| ==> !IsWhitespace(words[k][i])
    ensures |Trim(Join(words, ' '))| > 0
    ensures GetInitials(Join(words, ' ')) ==
      if |words| == 1 then [UpperChar(words[0][0])]
      else [UpperChar(words[0][0]), UpperChar(words[|words| - 1][0])]
  {
    var name := Join(words, ' ');
    JoinOfWordsIsTrimmed(words);
    TrimOfTrimmed(name);
    WordsHoldNoSpace(words);
    SplitJoin(words, ' ');
    InitialsOfPieces(name, words);
  }

  lemma InitialsOfPieces(t: string, words: seq<string>)
    requires |t| > 0 && IsTrimmed(t) && Trim(t) == t
    requires Split(t, ' ') == words
    requires forall k :: 0 <= k < |words| ==> |words[k]| > 0
    ensures GetInitials(t) ==
      if |words| == 1 then [UpperChar(words[0][0])]
      else [UpperChar(words[0][0]), UpperChar(words[|words| - 1][0])]
  {
    InitialsOfName(t);
    InitialsOfTrimmedPieces(t);
  }

  lemma WordsHoldNoSpace(words: seq<string>)
    requires forall k, i :: 0 <= k < |words| && 0 <= i < |words[k]| ==> !IsWhitespace(words[k][i])
    ensures forall k :: 0 <= k < |words| ==> ' ' !in words[k]
  {
    forall k | 0 <= k < |words| ensures ' ' !in words[k] {
      assert forall i :: 0 <= i < |words[k]| ==> words[k][i] != ' ';
    }
  }

  lemma JoinOfWordsIsTrimmed(words: seq<string>)
    requires |words| >= 1
    requires forall k :: 0 <= k < |words| ==> |words[k]| > 0
    requires forall k, i :: 0 <= k < |words| && 0 <= i < |words[k]| ==> !IsWhitespace(words[k][i])
    ensures |Join(words, ' ')| > 0 && IsTrimmed(Join(words, ' '))
  {
    JoinFirstChar(words, ' ');
    JoinLastChar(words, ' ');
  }

  lemma {:induction false} JoinFirstChar(parts: seq<string>, sep: char)
    requires |parts| >= 1 && |parts[0]| > 0
    ensures |Join(parts, sep)| > 0 && Join(parts, sep)[0] == parts[0][0]
  {
  }

  lemma JoinLastChar(parts: seq<string>, sep: char)
    requires |parts| >= 1 && |parts[|parts| - 1]| > 0
    ensures var s := Join(parts, sep); var last := parts[|parts| - 1];
      |s| > 0 && s[|s| - 1] == last[|last| - 1]
  {
    if |parts| >= 2 {
      JoinLast(parts, sep);
    }
  }
}
