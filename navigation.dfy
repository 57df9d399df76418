/** The navigation bar (`src/components/Navigation.tsx`): the signed-in user kept
    in the local store under "user", the avatar's initial and its colour, which a
    string hash with 32-bit shifts picks out of seven classes. */
module Navigation {
  import opened Base
  import opened Json
  import opened Text

  const AVATAR_COLORS: seq<string> := [
    "bg-blue-600", "bg-green-600", "bg-purple-600", "bg-pink-600",
    "bg-indigo-600", "bg-red-600", "bg-yellow-600"
  ]

  const USER_KEY: string := "user"

  const TWO_31: int := 0x8000_0000
  const TWO_32: int := 0x1_0000_0000

  // ---------------------------------------------------------------- the colour hash

  /** The ECMAScript `ToInt32` of an integral number: the value modulo 2^32,
      read as a signed 32-bit integer. */
  function ToInt32(x: int): (r: int)
    ensures -TWO_31 <= r < TWO_31
    ensures (r - x) % TWO_32 == 0
    ensures -TWO_31 <= x < TWO_31 ==> r == x
  {
    var m := x % TWO_32;
    if m >= TWO_31 then m - TWO_32 else m
  }

  /** `h << 5`: both the operand and the result are taken to 32 bits. */
  function ShiftLeft5(h: int): (r: int)
    ensures -TWO_31 <= r < TWO_31
  {
    ToInt32(ToInt32(h) * 32)
  }

  /** Below 2^26 in size the shift is a plain multiplication by 32: the wrap-around
      only shows once the hash has grown. */
  lemma ShiftLeft5Small(h: int)
    requires -0x400_0000 <= h < 0x400_0000
    ensures ShiftLeft5(h) == h * 32
  {
  }

  /** A hash past 2^31 is first cut to 32 bits: 2^31 shifts like -2^31. */
  lemma ShiftLeft5Wraps()
    ensures ShiftLeft5(TWO_31) == 0 && ShiftLeft5(0x400_0000) == -TWO_31
  {
  }

  /** `charCodeAt`: the code of the character. */
  function CharCode(c: char): (n: nat)
    ensures n < 0x11_0000
  {
    c as int
  }

  /** One turn of the loop: `hash = charCode + ((hash << 5) - hash)`. The
      subtraction and the addition are not taken to 32 bits. */
  function Step(h: int, c: char): int {
    CharCode(c) + (ShiftLeft5(h) - h)
  }

  /** The hash of a name: the loop run over its characters from hash 0. */
  function Hash(s: string): int
    decreases |s|
  {
    if s == [] then 0 else Step(Hash(s[..|s| - 1]), s[|s| - 1])
  }

  function Abs(x: int): nat {
    if x < 0 then -x else x
  }

  /** The colour `getAvatarColor` picks for a name. */
  function ColorFor(name: string): (color: string)
    ensures color in AVATAR_COLORS
  {
    AVATAR_COLORS[Abs(Hash(name)) % |AVATAR_COLORS|]
  }

  /** `getAvatarColor`: the loop over the name, then `|hash| % 7` as an index. */
  method AvatarColor(name: string) returns (color: string)
    ensures color == ColorFor(name)
    ensures color in AVATAR_COLORS
  {
    var hash := 0;
    var i := 0;
    while i < |name|
      invariant 0 <= i <= |name|
      invariant hash == Hash(name[..i])
    {
      assert name[..i + 1][..i] == name[..i];
      hash := CharCode(name[i]) + (ShiftLeft5(hash) - hash);
      i := i + 1;
    }
    assert name[..|name|] == name;
    color := AVATAR_COLORS[Abs(hash) % |AVATAR_COLORS|];
  }

  /** The hash grows by at most 2^31 plus a character code per character, so
      for names shorter than 2^21 characters it stays below 2^53 and the
      floating-point arithmetic of the loop is exact. */
  lemma {:induction false} HashBound(s: string)
    ensures Abs(Hash(s)) <= |s| * (TWO_31 + 0x11_0000)
    decreases |s|
  {
    if s != [] {
      HashBound(s[..|s| - 1]);
    }
  }

  lemma HashExact(s: string)
    requires |s| < 0x20_0000
    ensures Abs(Hash(s)) < 0x20_0000_0000_0000
  {
    HashBound(s);
    assert |s| * (TWO_31 + 0x11_0000) <= 0x1F_FFFF * (TWO_31 + 0x11_0000);
  }

  /** The empty name is blue, "U" (the fallback key) is green, "ab" is indigo. */
  lemma ColorExamples()
    ensures ColorFor("") == "bg-blue-600"
    ensures ColorFor("U") == "bg-green-600"
    ensures ColorFor("ab") == "bg-indigo-600"
  {
    assert "U"[..0] == "";
    assert Hash("U") == 85;
    assert "ab"[..1] == "a" && "a"[..0] == "";
    assert Hash("a") == 97;
    assert Hash("ab") == 3105;
  }

  // ---------------------------------------------------------------- the avatar

  /** The colour key: `user.name || user.email || "U"`. */
  function AvatarKey(user: Val): (k: Val)
    ensures Truthy(k)
    ensures Truthy(Get(user, "name")) ==> k == Get(user, "name")
    ensures !Truthy(Get(user, "name")) && Truthy(Get(user, "email")) ==> k == Get(user, "email")
    ensures !Truthy(Get(user, "name")) && !Truthy(Get(user, "email")) ==> k == Some(JStr("U"))
  {
    Or(Get(user, "name"), Or(Get(user, "email"), Some(JStr("U"))))
  }

  /** The message of the TypeError raised by calling `charAt` on a value that is
      not a string. */
  const NO_CHAR_AT: string := "charAt is not a function"

  /** `v.charAt(0).toUpperCase()` for a truthy value. */
  function FirstUpper(v: Json): (r: Result<string>)
    requires Truthy(Some(v))
    ensures v.JStr? ==> r == Ok([ToUpperChar(v.s[0])])
    ensures !v.JStr? ==> r == Err(NO_CHAR_AT)
  {
    if v.JStr? then Ok([ToUpperChar(v.s[0])]) else Err(NO_CHAR_AT)
  }

  /** `getInitial`: the upper-cased first character of the name, else of the
      email, else "U". */
  function Initial(user: Val): (r: Result<string>)
    ensures r.Ok? ==> |r.value| == 1 && !('a' <= r.value[0] <= 'z')
    ensures !Truthy(Get(user, "name")) && !Truthy(Get(user, "email")) ==> r == Ok("U")
  {
    if Truthy(Get(user, "name")) then FirstUpper(Get(user, "name").value)
    else if Truthy(Get(user, "email")) then FirstUpper(Get(user, "email").value)
    else Ok("U")
  }

  /** The initial and the colour key agree: the initial is the first character of
      the key, upper-cased, whenever the key is a string. */
  lemma InitialOfKey(user: Val)
    requires AvatarKey(user).value.JStr?
    ensures Initial(user) == Ok([ToUpperChar(AvatarKey(user).value.s[0])])
  {
  }

  /** A user with no name and no email shows "U" on a green avatar. */
  lemma AnonymousAvatar(user: Val)
    requires !Truthy(Get(user, "name")) && !Truthy(Get(user, "email"))
    ensures Initial(user) == Ok("U") && ColorFor(AvatarKey(user).value.s) == "bg-green-600"
  {
    ColorExamples();
  }

  // ---------------------------------------------------------------- the session

  /** The navigation bar's state and the local store it writes. `user` is
      `Some(JNull)` while nobody is signed in. */
  class Nav {
    var user: Val
    var dropdownOpen: bool
    var store: map<string, string>

    constructor (store0: map<string, string>)
      ensures user == Some(JNull) && !dropdownOpen && store == store0
    {
      user := Some(JNull);
      dropdownOpen := false;
      store := store0;
    }

    /** The mount effect: a non-empty stored "user" is parsed (`parsed` is what
        `JSON.parse` gives, `None` when it throws); a parse failure removes the
        key and leaves `user` as it was. */
    method LoadStored(parsed: Option<Json>)
      modifies this
      ensures USER_KEY in old(store) && old(store)[USER_KEY] != [] && parsed.Some? ==>
                user == parsed && store == old(store)
      ensures USER_KEY in old(store) && old(store)[USER_KEY] != [] && parsed.None? ==>
                user == old(user) && store == old(store) - {USER_KEY}
      ensures !(USER_KEY in old(store) && old(store)[USER_KEY] != []) ==> user == old(user) && store == old(store)
      ensures dropdownOpen == old(dropdownOpen)
    {
      if USER_KEY in store && store[USER_KEY] != [] {
        if parsed.Some? {
          user := parsed;
        } else {
          store := store - {USER_KEY};
        }
      }
    }

    /** `handleLoginSuccess`: the user is set and stored under "user"; `encoded`
        is `JSON.stringify(userData)`. */
    method LoginSuccess(userData: Json, encoded: string)
      modifies this
      ensures user == Some(userData) && store == old(store)[USER_KEY := encoded]
      ensures dropdownOpen == old(dropdownOpen)
    {
      user := Some(userData);
      store := store[USER_KEY := encoded];
    }

    /** `handleLogout`: the stored user is removed, `user` is null and the
        dropdown is closed. */
    method Logout()
      modifies this
      ensures user == Some(JNull) && !dropdownOpen && store == old(store) - {USER_KEY}
    {
      store := store - {USER_KEY};
      user := Some(JNull);
      dropdownOpen := false;
    }

    /** A click on the avatar toggles the dropdown. */
    method ToggleDropdown()
      modifies this
      ensures dropdownOpen == !old(dropdownOpen) && user == old(user) && store == old(store)
    {
      dropdownOpen := !dropdownOpen;
    }

    /** A mouse-down outside the dropdown closes it. */
    method ClickOutside()
      modifies this
      ensures !dropdownOpen && user == old(user) && store == old(store)
    {
      dropdownOpen := false;
    }
  }

  /** After a logout, a fresh mount finds nobody: the stored user is gone, so
      the page starts signed out whatever `JSON.parse` would give. */
  method LogoutThenReload(nav: Nav, parsed: Option<Json>) returns (next: Nav)
    modifies nav
    ensures next.user == Some(JNull) && USER_KEY !in next.store
  {
    nav.Logout();
    next := new Nav(nav.store);
    next.LoadStored(parsed);
  }

  /** A login survives a reload whose parse gives back the stored user. */
  method LoginThenReload(nav: Nav, userData: Json, encoded: string) returns (next: Nav)
    requires encoded != []
    modifies nav
    ensures next.user == Some(userData) && USER_KEY in next.store && next.store[USER_KEY] == encoded
  {
    nav.LoginSuccess(userData, encoded);
    next := new Nav(nav.store);
    next.LoadStored(Some(userData));
  }
}
