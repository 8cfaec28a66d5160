/** Start-up rehydration: the session is read back from the cookie string and
    the cart from the saved local-storage value. */
module Providers {
  import opened Wrappers
  import opened Types
  import opened Strings
  import opened CartSlice
  import opened AuthSlice

  // ----- Cookie lookup -----

  /** The text before the first `c`, or all of `s` when there is none. */
  function UpTo(s: string, c: char): (r: string)
    ensures r <= s && c !in r
    ensures |r| < |s| ==> s[|r|] == c
  {
    if s == [] || s[0] == c then [] else [s[0]] + UpTo(s[1..], c)
  }

  /** The cookie string with a leading "; ", so every cookie is preceded by "; ". */
  function CookieText(cookie: string): string {
    "; " + cookie
  }

  function Marker(name: string): (m: string)
    ensures |m| > 0 && m[0] == ';'
  {
    "; " + name + "="
  }

  /** `getCookie(name)` over `document.cookie`: split on "; name=", and only
      when that gives exactly two parts take the second up to its first ";". */
  function GetCookie(cookie: string, name: string): Option<string> {
    var parts := Split(CookieText(cookie), Marker(name));
    if |parts| == 2 then Some(Split(parts[1], ";")[0]) else None
  }

  /** The first part of a split on ";" is the text before the first ";". */
  lemma SplitFirstIsUpTo(s: string)
    ensures Split(s, ";")[0] == UpTo(s, ';')
  {
    IndexOfFirst(s, ";");
    match IndexOf(s, ";")
    case None =>
      IndexOfChar(s, ';');
    case Some(i) =>
      assert s[i..i + 1] == ";";
      forall j | 0 <= j < i ensures s[j] != ';' {
        assert !OccursAt(s, ";", j);
        assert s[j..j + 1] == [s[j]];
      }
      UpToUnique(s, ';', s[..i]);
  }

  /** `UpTo` is the only prefix free of `c` that stops at a `c` or at the end. */
  lemma UpToUnique(s: string, c: char, r: string)
    requires r <= s && c !in r && (|r| < |s| ==> s[|r|] == c)
    ensures UpTo(s, c) == r
  {
  }

  /** The marker occurs, and not again after its first occurrence. */
  predicate MarkerOnce(t: string, m: string)
    requires |m| > 0
  {
    IndexOf(t, m).Some? && IndexOf(t[IndexOf(t, m).value + |m|..], m).None?
  }

  /** The text after the first occurrence of the marker. */
  function AfterMarker(t: string, m: string): string
    requires |m| > 0 && IndexOf(t, m).Some?
  {
    t[IndexOf(t, m).value + |m|..]
  }

  /** The cookie is found exactly when the marker occurs once in the
      prefixed cookie string; its value is the text after the marker up to
      the next ";". */
  lemma GetCookieSpec(cookie: string, name: string)
    ensures GetCookie(cookie, name).Some? <==> MarkerOnce(CookieText(cookie), Marker(name))
    ensures GetCookie(cookie, name).Some? ==>
              GetCookie(cookie, name).value == UpTo(AfterMarker(CookieText(cookie), Marker(name)), ';')
  {
    var t, m := CookieText(cookie), Marker(name);
    SplitTwo(t, m);
    if |Split(t, m)| == 2 {
      SplitFirstIsUpTo(Split(t, m)[1]);
    }
  }

  /** A found value never contains ";". */
  lemma GetCookieValueClean(cookie: string, name: string)
    requires GetCookie(cookie, name).Some?
    ensures ';' !in GetCookie(cookie, name).value
  {
    GetCookieSpec(cookie, name);
  }

  /** A pattern placed at the front of a text is its first occurrence. */
  lemma IndexOfAtFront(m: string, rest: string)
    ensures IndexOf(m + rest, m) == Some(0)
  {
    assert (m + rest)[0..|m|] == m;
    assert OccursAt(m + rest, m, 0);
  }

  /** A cookie string holding just `name=value` yields `value`. */
  lemma GetCookieSingle(name: string, value: string)
    requires ';' !in value
    ensures GetCookie(name + "=" + value, name) == Some(value)
  {
    var t, m := CookieText(name + "=" + value), Marker(name);
    assert t == m + value;
    IndexOfAtFront(m, value);
    assert AfterMarker(t, m) == value;
    IndexOfAbsentFirstChar(value, m);
    GetCookieSpec(name + "=" + value, name);
    UpToUnique(value, ';', value);
  }

  /** A name set twice is not found at all. */
  lemma GetCookieDuplicate(name: string, v1: string, v2: string)
    ensures GetCookie(name + "=" + v1 + "; " + name + "=" + v2, name) == None
  {
    var cookie := name + "=" + v1 + "; " + name + "=" + v2;
    var t, m := CookieText(cookie), Marker(name);
    var rest := v1 + m + v2;
    assert t == m + rest;
    IndexOfAtFront(m, rest);
    assert AfterMarker(t, m) == rest;
    assert rest[|v1|..|v1| + |m|] == m;
    assert OccursAt(rest, m, |v1|);
    IndexOfFirst(rest, m);
    GetCookieSpec(cookie, name);
  }

  /** A cookie whose name merely ends with `name` (as "xauth-token" ends with
      "auth-token") is not taken for it. */
  lemma GetCookieSuffixName(prefix: string, name: string, value: string)
    requires prefix != ""
    requires ';' !in prefix && ';' !in name && ';' !in value
    requires '=' !in prefix && '=' !in name
    ensures GetCookie(prefix + name + "=" + value, name) == None
  {
    var cookie := prefix + name + "=" + value;
    var t, m := CookieText(cookie), Marker(name);
    assert ';' !in cookie;
    forall j | 0 <= j <= |t| ensures !OccursAt(t, m, j) {
      if j + |m| <= |t| {
        if j == 0 {
          var c := |name|;
          assert cookie[c] == (prefix + name)[c];
          assert cookie[c] in prefix + name;
          assert t[..|m|][2 + c] != m[2 + c];
        } else if j == 1 {
          assert t[j..j + |m|][0] != m[0];
        } else {
          assert t[j] == cookie[j - 2];
          assert t[j..j + |m|][0] != m[0];
        }
      }
    }
    GetCookieSpec(cookie, name);
  }

  // ----- Rehydration -----

  /** The `hydrateAuth` payload: both cookies present and non-empty and the
      user data decodes; anything else gives null. `parseUser` stands for
      `JSON.parse(decodeURIComponent(·))`, None where it throws. */
  function AuthPayload(authToken: Option<string>, userData: Option<string>,
                       parseUser: string -> Option<User>): (p: Option<Credentials>)
    ensures p.Some? <==>
              authToken.Some? && authToken.value != "" && userData.Some? && userData.value != "" &&
              parseUser(userData.value).Some?
    ensures p.Some? ==> p.value == Credentials(parseUser(userData.value).value, authToken.value)
  {
    if authToken.Some? && authToken.value != "" && userData.Some? && userData.value != "" then
      match parseUser(userData.value)
      case Some(user) => Some(Credentials(user, authToken.value))
      case None => None
    else None
  }

  /** The `hydrateCart` payload, if one is dispatched at all: only a saved,
      non-empty value that parses. `parseCart` stands for `JSON.parse`. */
  function CartPayload(savedCart: Option<string>, parseCart: string -> Option<seq<CartItem>>):
    (p: Option<seq<CartItem>>)
    ensures p.Some? <==> savedCart.Some? && savedCart.value != "" && parseCart(savedCart.value).Some?
    ensures p.Some? ==> p.value == parseCart(savedCart.value).value
  {
    if savedCart.Some? && savedCart.value != "" then parseCart(savedCart.value) else None
  }

  /** A cart saved by the store subscription is restored as it was, for any
      codec whose parse inverts its serialisation. */
  lemma PersistedCartRestored(items: seq<CartItem>, encode: seq<CartItem> -> string,
                              parseCart: string -> Option<seq<CartItem>>)
    requires encode(items) != "" && parseCart(encode(items)) == Some(items)
    ensures CartPayload(Some(encode(items)), parseCart) == Some(items)
  {
  }

  /** The start-up effect: dispatch `hydrateAuth` with the cookie payload,
      then `hydrateCart` when a saved cart parses. */
  method Hydrate(auth: AuthStore, cart: CartStore, cookie: string, savedCart: Option<string>,
                 parseUser: string -> Option<User>, parseCart: string -> Option<seq<CartItem>>)
    modifies auth, cart
    ensures var p := AuthPayload(GetCookie(cookie, "auth-token"), GetCookie(cookie, "user-data"), parseUser);
            (p.Some? ==> auth.user == Some(p.value.user) && auth.token == Some(p.value.token) && auth.isAuthenticated) &&
            (p.None? ==> auth.user == old(auth.user) && auth.token == old(auth.token) &&
                         auth.isAuthenticated == old(auth.isAuthenticated))
    ensures !auth.isLoading && auth.error == old(auth.error)
    ensures old(auth.Valid()) ==> auth.Valid()
    ensures var c := CartPayload(savedCart, parseCart);
            cart.items == (if c.Some? then c.value else old(cart.items)) && cart.isOpen == old(cart.isOpen)
  {
    var payload := AuthPayload(GetCookie(cookie, "auth-token"), GetCookie(cookie, "user-data"), parseUser);
    auth.HydrateAuth(payload);
    var saved := CartPayload(savedCart, parseCart);
    if saved.Some? {
      cart.HydrateCart(saved.value);
    }
  }
}
