/** The navigation bar: the avatar's initials, the admin link and the two count badges. */
module Navbar {
  import opened Wrappers
  import opened Text
  import opened Session

  /** The first character of each piece, a piece without one adding nothing (`n[0]` of an
      empty piece is `undefined`, which `join` writes as ""). */
  function Heads(parts: seq<string>): (h: string)
    ensures |h| <= |parts|
    decreases |parts|
  {
    if parts == [] then ""
    else (if parts[0] == "" then "" else [parts[0][0]]) + Heads(parts[1..])
  }

  /** `getInitials(name)`: the upper-cased first characters of the space-separated pieces,
      or "U" when that is empty (a missing name reads as ""). */
  function Initials(name: string): (r: string)
    ensures r != ""
  {
    var u := ToUpper(Heads(Split(name, ' ')));
    if u == "" then "U" else u
  }

  /** Splitting a word free of separators followed by the separator takes off that word. */
  lemma {:induction false} SplitAfterWord(a: string, sep: char, b: string)
    requires sep !in a
    ensures Split(a + [sep] + b, sep) == [a] + Split(b, sep)
    decreases |a|
  {
    if a == [] {
      assert a + [sep] + b == [sep] + b;
      assert ([sep] + b)[1..] == b;
    } else {
      SplitAfterWord(a[1..], sep, b);
      assert (a + [sep] + b)[1..] == a[1..] + [sep] + b;
      assert [a[0]] + a[1..] == a;
    }
  }

  /** A word free of the separator splits into itself. */
  lemma {:induction false} SplitWord(a: string, sep: char)
    requires sep !in a
    ensures Split(a, sep) == [a]
    decreases |a|
  {
    if a != [] {
      SplitWord(a[1..], sep);
      assert [a[0]] + a[1..] == a;
    }
  }

  /** Splitting undoes joining, for pieces free of the separator. */
  lemma {:induction false} SplitOfJoin(parts: seq<string>, sep: char)
    requires |parts| >= 1 && forall k :: 0 <= k < |parts| ==> sep !in parts[k]
    ensures Split(Join(parts, sep), sep) == parts
    decreases |parts|
  {
    if |parts| == 1 {
      SplitWord(parts[0], sep);
    } else {
      SplitOfJoin(parts[1..], sep);
      SplitAfterWord(parts[0], sep, Join(parts[1..], sep));
      assert [parts[0]] + parts[1..] == parts;
    }
  }

  /** The heads of non-empty pieces are their first characters, in order. */
  lemma {:induction false} HeadsOfWords(parts: seq<string>)
    requires forall k :: 0 <= k < |parts| ==> parts[k] != ""
    ensures |Heads(parts)| == |parts|
    ensures forall k :: 0 <= k < |parts| ==> Heads(parts)[k] == parts[k][0]
    decreases |parts|
  {
    if parts != [] {
      HeadsOfWords(parts[1..]);
    }
  }

  /** For a name made of one or more words separated by single spaces, the initials are the
      upper-cased first letters of the words, one per word. */
  lemma InitialsOfWords(words: seq<string>)
    requires |words| >= 1
    requires forall k :: 0 <= k < |words| ==> words[k] != "" && ' ' !in words[k]
    ensures |Initials(Join(words, ' '))| == |words|
    ensures forall k :: 0 <= k < |words| ==> Initials(Join(words, ' '))[k] == Upper(words[k][0])
  {
    SplitOfJoin(words, ' ');
    HeadsOfWords(words);
  }

  /** A name with no character but spaces (the empty name included) has no piece with a first
      character, so the avatar shows "U". */
  lemma {:induction false} InitialsOfSpaces(name: string)
    requires forall i :: 0 <= i < |name| ==> name[i] == ' '
    ensures Heads(Split(name, ' ')) == "" && Initials(name) == "U"
    decreases |name|
  {
    if name != [] {
      InitialsOfSpaces(name[1..]);
      assert Split(name, ' ') == [""] + Split(name[1..], ' ');
    }
  }

  /** What the bar shows for a user, a cart item count and a wishlist count. */
  datatype NavView = NavView(adminLink: bool, wishlistBadge: Option<int>, cartBadge: Option<int>, avatar: Option<string>)

  /** The admin link for an admin only; each badge with its count when the count is positive;
      the avatar with the user's initials when someone is signed in. */
  function View(user: Option<User>, totalItems: int, wishlistCount: int): (v: NavView)
    ensures v.adminLink <==> user.Some? && user.value.role == "admin"
    ensures v.cartBadge.Some? <==> totalItems > 0
    ensures v.cartBadge.Some? ==> v.cartBadge.value == totalItems
    ensures v.wishlistBadge.Some? <==> wishlistCount > 0
    ensures v.wishlistBadge.Some? ==> v.wishlistBadge.value == wishlistCount
    ensures v.avatar.Some? <==> user.Some?
    ensures user.Some? ==> v.avatar == Some(Initials(user.value.name))
  {
    NavView(
      user.Some? && user.value.role == "admin",
      if wishlistCount > 0 then Some(wishlistCount) else None,
      if totalItems > 0 then Some(totalItems) else None,
      if user.Some? then Some(Initials(user.value.name)) else None)
  }

  /** The mobile menu: the burger button flips it and every link inside it closes it. */
  class MobileMenu {
    var isOpen: bool

    constructor ()
      ensures !isOpen
    {
      isOpen := false;
    }

    /** The burger button. */
    method Toggle()
      modifies this
      ensures isOpen == !old(isOpen)
    {
      isOpen := !isOpen;
    }

    /** Any link of the open menu, and "Logout". */
    method FollowLink()
      modifies this
      ensures !isOpen
    {
      isOpen := false;
    }
  }
}
