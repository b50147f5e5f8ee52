/** Values shared by both engines: optional values, DOM nodes as the engines
    see them, the browser state they read and write, and the string helpers
    (`String.prototype.indexOf` / `replace` with a string pattern). */
module Common {

  datatype Option<+T> = None | Some(value: T)

  datatype Result<+T> = Success(value: T) | Failure(error: string)

  /** A DOM node as the anchor resolvers see it: only its `href` matters.
      `None` is an absent `href`; `Some("")` is present but falsy. */
  datatype Node = Node(href: Option<string>)

  /** JavaScript truthiness of an `href` value. */
  predicate HasHref(n: Node)
  {
    n.href.Some? && n.href.value != ""
  }

  /** A navigation the engine asked the browser for. `Assign(None)` is an
      assignment of `null`/`undefined` to `window.location`. */
  datatype Nav = Reload | Assign(url: Option<string>)

  /** The browser state the engines read and change, and logs of the effects
      they have on it:
      - `origin`, `pathname`: `window.location.origin` / `.pathname`;
      - `scrollY`: the window's scroll offset;
      - `className`: `document.body.className`;
      - `elements`: the ids `document.getElementById` can find;
      - `linkCount`: how many `<a>` elements the page has;
      - `bound`: ids of the elements that carry the transition-end listener;
      - `navigations`, `prevented`, `errors`, `hookCalls`: logs of location
        changes, `preventDefault` calls, `console.error` messages and calls
        of the `beforeAnimationStart` hook (by the descriptor's pattern). */
  datatype Host = Host(
    origin: string,
    pathname: string,
    scrollY: int,
    className: string,
    elements: set<string>,
    linkCount: nat,
    bound: set<string>,
    navigations: seq<Nav>,
    prevented: nat,
    errors: seq<string>,
    hookCalls: seq<string>)

  /** The navigation `followLink` performs: a reload when the target equals
      the current path (assigning it would not navigate), else an assignment. */
  function NavFor(pathname: string, target: Option<string>): (n: Nav)
    ensures n == Reload <==> target == Some(pathname)
    ensures n != Reload ==> n == Assign(target)
  {
    if target == Some(pathname) then Reload else Assign(target)
  }

  // ---------------------------------------------------------------------
  // `||` defaulting as the constructors and `register` use it

  /** `x || d` for a boolean option: only `true` is truthy. */
  function OrBool(x: Option<bool>, d: bool): (r: bool)
    ensures r <==> x == Some(true) || d
  {
    if x == Some(true) then true else d
  }

  /** `x || d` for a string option: the empty string is falsy. */
  function OrString(x: Option<string>, d: string): (r: string)
    ensures x.Some? && x.value != "" ==> r == x.value
    ensures x.None? || x.value == "" ==> r == d
  {
    if x.Some? && x.value != "" then x.value else d
  }

  /** `x || d` for a number option: zero is falsy. */
  function OrInt(x: Option<int>, d: int): (r: int)
    ensures x.Some? && x.value != 0 ==> r == x.value
    ensures x.None? || x.value == 0 ==> r == d
  {
    if x.Some? && x.value != 0 then x.value else d
  }

  // ---------------------------------------------------------------------
  // String search and first-occurrence replacement

  /** `t` occurs in `s` starting at index `i`. */
  predicate OccursAt(s: string, t: string, i: nat)
  {
    i + |t| <= |s| && s[i..i + |t|] == t
  }

  /** The first index at or after `i` where `t` occurs in `s`. */
  function IndexFrom(s: string, t: string, i: nat): (r: Option<nat>)
    requires i <= |s|
    decreases |s| - i
    ensures r.Some? ==> i <= r.value <= |s| && OccursAt(s, t, r.value)
    ensures r.Some? ==> forall j :: i <= j < r.value ==> !OccursAt(s, t, j)
    ensures r.None? ==> forall j: nat :: i <= j ==> !OccursAt(s, t, j)
  {
    if OccursAt(s, t, i) then Some(i)
    else if i == |s| then None
    else IndexFrom(s, t, i + 1)
  }

  /** `s.indexOf(t)`, with `None` for -1. */
  function IndexOf(s: string, t: string): (r: Option<nat>)
    ensures r.Some? ==> r.value <= |s| && OccursAt(s, t, r.value)
    ensures r.Some? ==> forall j :: 0 <= j < r.value ==> !OccursAt(s, t, j)
    ensures r.None? <==> forall j: nat :: !OccursAt(s, t, j)
  {
    IndexFrom(s, t, 0)
  }

  /** `s.replace(t, rep)` with a string pattern: only the first occurrence
      of `t` is replaced; without one, `s` is returned unchanged. */
  function ReplaceFirst(s: string, t: string, rep: string): (r: string)
    ensures IndexOf(s, t).None? ==> r == s
    ensures IndexOf(s, t).Some? ==>
              var i := IndexOf(s, t).value;
              |r| == |s| - |t| + |rep| && r[..i] == s[..i] && r[i..] == rep + s[i + |t|..]
  {
    match IndexOf(s, t)
    case None => s
    case Some(i) => s[..i] + rep + s[i + |t|..]
  }

  /** `_getAnchorPath`: the href with the first occurrence of the page's
      origin cut out. */
  function AnchorPath(href: string, origin: string): (r: string)
    ensures (forall j: nat :: !OccursAt(href, origin, j)) ==> r == href
    ensures OccursAt(href, origin, 0) ==> r == href[|origin|..]
    ensures (exists j: nat :: OccursAt(href, origin, j)) ==> |r| == |href| - |origin|
  {
    ReplaceFirst(href, origin, "")
  }

  lemma AnchorPathOfInSiteLink(origin: string, rest: string)
    ensures AnchorPath(origin + rest, origin) == rest
  {
    assert OccursAt(origin + rest, origin, 0) by {
      assert (origin + rest)[0..|origin|] == origin;
    }
    assert (origin + rest)[|origin|..] == rest;
  }

  // ---------------------------------------------------------------------
  // The padded class token on `body.className`

  /** Removing a token right after appending it gives back the class string
      it was appended to, provided the token has no earlier occurrence in the
      combined string (which also rules out one that starts inside `c`). */
  lemma {:induction false} RemoveAppendedToken(c: string, tok: string)
    requires forall j: nat :: j < |c| ==> !OccursAt(c + tok, tok, j)
    ensures ReplaceFirst(c + tok, tok, "") == c
  {
    var s := c + tok;
    assert OccursAt(s, tok, |c|) by { assert s[|c|..|c| + |tok|] == tok; }
    var i := IndexOf(s, tok).value;
    assert i == |c|;
    assert s[..i] == c;
    assert s[i + |tok|..] == [];
  }

  /** The condition of `RemoveAppendedToken` is needed: when the class string
      ends with the token's prefix, the first occurrence straddles the seam,
      so removing it merges two classes and leaves a tail behind. */
  lemma RemoveAppendedTokenCanMerge()
    ensures ReplaceFirst("x a" + " a ", " a ", "") == "xa "
  {
    var s := "x a" + " a ";
    assert s == "x a a ";
    assert !OccursAt(s, " a ", 0) by { assert s[0..3] == "x a"; }
    assert OccursAt(s, " a ", 1) by { assert s[1..4] == " a "; }
    assert IndexOf(s, " a ") == Some(1);
    assert s[..1] + s[4..] == "xa ";
  }

  // ---------------------------------------------------------------------
  // Anchor resolution

  /** The first index below `n` whose node has a truthy `href`. */
  function FirstHref(s: seq<Node>, n: nat, i: nat): (r: Option<nat>)
    requires i <= n <= |s|
    decreases n - i
    ensures r.Some? ==> i <= r.value < n && HasHref(s[r.value])
    ensures r.Some? ==> forall j :: i <= j < r.value ==> !HasHref(s[j])
    ensures r.None? ==> forall j :: i <= j < n ==> !HasHref(s[j])
  {
    if i == n then None
    else if HasHref(s[i]) then Some(i)
    else FirstHref(s, n, i + 1)
  }

  /** How the scroll timing of an animation orders the class change. */
  datatype StartMode =
    | ScrollThenStart      // scroll first; add the class when it completes
    | StartWhileScrolling  // add the class on a 0 ms timer and scroll meanwhile
    | StartNow             // add the class at once

  function ModeOf(shouldScroll: bool, timing: string): (m: StartMode)
    ensures m == ScrollThenStart <==> shouldScroll && timing == "before"
    ensures m == StartWhileScrolling <==> shouldScroll && timing == "during"
    ensures m == StartNow <==> !shouldScroll || (timing != "before" && timing != "during")
  {
    if shouldScroll && timing == "before" then ScrollThenStart
    else if shouldScroll && timing == "during" then StartWhileScrolling
    else StartNow
  }
}
