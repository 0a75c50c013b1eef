/**
 * The avatar of the dashboard header: the user's initials, or 'U' when there is
 * no name to take them from. Upper-casing is modelled on ASCII letters only.
 */
module DashboardHeader {
  import opened Wrappers
  import opened Js
  import opened Types

  /** `parts.map(n => n[0]).join('')`: an empty word's `n[0]` is `undefined`, which `join`
      writes as nothing. */
  function FirstChars(parts: seq<string>): (r: string)
    ensures |r| <= |parts|
  {
    if parts == [] then []
    else (if parts[0] == [] then [] else [parts[0][0]]) + FirstChars(parts[1..])
  }

  /** The words that are not empty, in order. */
  function NonEmptyWords(parts: seq<string>): (r: seq<string>)
    ensures forall i :: 0 <= i < |r| ==> r[i] != []
  {
    if parts == [] then []
    else (if parts[0] == [] then [] else [parts[0]]) + NonEmptyWords(parts[1..])
  }

  function Min(a: nat, b: nat): nat {
    if a <= b then a else b
  }

  /** `name.split(' ').map(n => n[0]).join('').toUpperCase().slice(0, 2)`. */
  function GetUserInitials(name: string): (r: string)
    ensures |r| <= 2
  {
    var initials := UpperAscii(FirstChars(Split(name, ' ')));
    initials[..Min(2, |initials|)]
  }

  /** The initials are the first characters of the non-empty words. */
  lemma {:induction false} FirstCharsOfWords(parts: seq<string>)
    ensures |FirstChars(parts)| == |NonEmptyWords(parts)|
    ensures forall i :: 0 <= i < |FirstChars(parts)| ==> FirstChars(parts)[i] == NonEmptyWords(parts)[i][0]
    decreases |parts|
  {
    if parts != [] {
      FirstCharsOfWords(parts[1..]);
    }
  }

  /** The initials are the upper-cased first characters of the first two non-empty
      ' '-separated words; empty words from repeated or leading spaces contribute nothing. */
  lemma InitialsOfWords(name: string)
    ensures var words := NonEmptyWords(Split(name, ' '));
      && |GetUserInitials(name)| == Min(2, |words|)
      && forall i :: 0 <= i < |GetUserInitials(name)| ==> GetUserInitials(name)[i] == ToUpperAscii(words[i][0])
  {
    FirstCharsOfWords(Split(name, ' '));
  }

  /** With three words only the first two initials appear: 'ana maria silva' shows 'AM'. */
  lemma ThreeWords(a: string, b: string, c: string)
    requires a != [] && b != [] && c != []
    requires ' ' !in a && ' ' !in b && ' ' !in c
    ensures GetUserInitials(a + " " + b + " " + c) == [ToUpperAscii(a[0]), ToUpperAscii(b[0])]
  {
    var parts := Split(a + " " + b + " " + c, ' ');
    SplitThreeWords(a, b, c);
    assert NonEmptyWords(parts) == [a, b, c] by {
      assert [c][1..] == [];
      assert NonEmptyWords([c]) == [c];
      assert [b, c][1..] == [c];
      assert NonEmptyWords([b, c]) == [b, c];
      assert [a, b, c][1..] == [b, c];
    }
    InitialsOfWords(a + " " + b + " " + c);
  }

  lemma ThreeWordExample()
    ensures GetUserInitials("ana maria silva") == "AM"
  {
    ThreeWords("ana", "maria", "silva");
    assert "ana" + " " + "maria" + " " + "silva" == "ana maria silva";
  }

  /** Splitting three space-free words joined by single spaces gives them back. */
  lemma SplitThreeWords(a: string, b: string, c: string)
    requires ' ' !in a && ' ' !in b && ' ' !in c
    ensures Split(a + " " + b + " " + c, ' ') == [a, b, c]
  {
    JoinSplitSingle(a, b + " " + c);
    JoinSplitSingle(b, c);
    NoSeparatorSplit(c);
    assert a + " " + b + " " + c == a + " " + (b + " " + c);
  }

  lemma {:induction false} NoSeparatorSplit(w: string)
    requires ' ' !in w
    ensures Split(w, ' ') == [w]
    decreases |w|
  {
    if w != [] {
      NoSeparatorSplit(w[1..]);
      assert [w[0]] + w[1..] == w;
    }
  }

  lemma {:induction false} JoinSplitSingle(w: string, rest: string)
    requires ' ' !in w
    ensures Split(w + " " + rest, ' ') == [w] + Split(rest, ' ')
    decreases |w|
  {
    if w == [] {
      assert w + " " + rest == [' '] + rest;
      assert ([' '] + rest)[1..] == rest;
    } else {
      JoinSplitSingle(w[1..], rest);
      assert (w + " " + rest)[1..] == w[1..] + " " + rest;
      assert [w[0]] + w[1..] == w;
    }
  }

  /** `user?.name ? getUserInitials(user.name) : 'U'`. */
  function AvatarText(user: Option<User>): (r: string)
    ensures user.None? || user.value.name == [] ==> r == "U"
    ensures user.Some? && user.value.name != [] ==> r == GetUserInitials(user.value.name)
  {
    if user.Some? && user.value.name != [] then GetUserInitials(user.value.name) else "U"
  }

  /** A name with a character other than ' ' always shows some initial. */
  lemma {:induction false} NonBlankNameShowsInitial(user: User, k: nat)
    requires k < |user.name| && user.name[k] != ' '
    ensures AvatarText(Some(user)) != []
  {
    NonEmptyWordExists(user.name, k);
    InitialsOfWords(user.name);
  }

  lemma {:induction false} NonEmptyWordExists(s: string, k: nat)
    requires k < |s| && s[k] != ' '
    ensures NonEmptyWords(Split(s, ' ')) != []
    decreases |s|
  {
    var rest := Split(s[1..], ' ');
    if k > 0 {
      NonEmptyWordExists(s[1..], k - 1);
      SplitTailWords(s);
    } else {
      SplitHeadWord(s);
    }
  }

  /** The words of `s` include the words of `s[1..]`, except that the first of those may
      be extended by `s[0]`. */
  lemma SplitTailWords(s: string)
    requires s != [] && NonEmptyWords(Split(s[1..], ' ')) != []
    ensures NonEmptyWords(Split(s, ' ')) != []
  {
    var rest := Split(s[1..], ' ');
    if s[0] == ' ' {
      assert Split(s, ' ') == [[]] + rest;
      assert NonEmptyWords(Split(s, ' ')) == NonEmptyWords(rest);
    } else {
      assert Split(s, ' ') == [[s[0]] + rest[0]] + rest[1..];
      assert rest == [rest[0]] + rest[1..];
    }
  }

  lemma SplitHeadWord(s: string)
    requires s != [] && s[0] != ' '
    ensures NonEmptyWords(Split(s, ' ')) != []
  {
    var rest := Split(s[1..], ' ');
    assert Split(s, ' ') == [[s[0]] + rest[0]] + rest[1..];
  }

  /** A name made of spaces only shows no initial at all, not the 'U' fallback. */
  lemma SpacesOnlyNameShowsNothing()
    ensures AvatarText(Some(User(None, " ", None, None, None))) == []
  {
    assert Split(" ", ' ') == [[], []] by {
      assert " "[1..] == [];
    }
  }
}
