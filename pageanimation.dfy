/** The older engine of `src/pageanimation.js`. It differs from Pangea in
    that the anchor is the event target or the first `e.path` entry with an
    `href`; the body class is not padded and replaces the whole class string;
    the navigation target is kept in `this.targetUrl`, set when the class is
    applied; every scroll lasts 200 ms; and the slot is cleared as soon as
    the transition ends, with no cleanup afterwards. */
module PageAnimation {
  import opened Common
  import opened Registry

  const ScrollDuration := 200

  /** The constructor's `options`; `None` marks an absent property. */
  datatype Options = Options(
    shouldScroll: Option<bool>,
    scrollTiming: Option<string>,
    animateLinksToSelf: Option<bool>,
    computeScrollOffset: Option<Descriptor -> int>,
    shouldAnimate: Option<() -> bool>)

  /** `register`'s `options`. */
  datatype RegisterOptions = RegisterOptions(shouldScroll: Option<bool>, scrollTiming: Option<string>)

  datatype Defaults = Defaults(shouldScroll: bool, scrollTiming: string)

  datatype Settings = Settings(animateLinksToSelf: bool)

  /** `this.cb`; `shouldAnimate` is called without arguments here. */
  datatype Callbacks = Callbacks(computeScrollOffset: Descriptor -> int, shouldAnimate: () -> bool)

  datatype Config = Config(defaults: Defaults, settings: Settings, cb: Callbacks)

  /** The constructor's reading of `options`: absent options throw, and
      `options.shouldScroll || true` makes scrolling always on. */
  function MakeConfig(options: Option<Options>): (r: Result<Config>)
    ensures r.Failure? <==> options.None?
    ensures r.Success? ==>
              var c := r.value;
              var o := options.value;
              && c.defaults.shouldScroll
              && (o.scrollTiming.Some? && o.scrollTiming.value != "" ==> c.defaults.scrollTiming == o.scrollTiming.value)
              && (o.scrollTiming.None? || o.scrollTiming.value == "" ==> c.defaults.scrollTiming == "before")
              && (c.settings.animateLinksToSelf <==> o.animateLinksToSelf == Some(true))
              && (o.computeScrollOffset.Some? ==> c.cb.computeScrollOffset == o.computeScrollOffset.value)
              && (o.shouldAnimate.Some? ==> c.cb.shouldAnimate == o.shouldAnimate.value)
              && (o.shouldAnimate.None? ==> c.cb.shouldAnimate())
  {
    match options
    case None => Failure("TypeError: Cannot read properties of undefined")
    case Some(o) =>
      Success(Config(
        Defaults(OrBool(o.shouldScroll, true), OrString(o.scrollTiming, "before")),
        Settings(OrBool(o.animateLinksToSelf, false)),
        Callbacks(
          if o.computeScrollOffset.Some? then o.computeScrollOffset.value else d => 0,
          if o.shouldAnimate.Some? then o.shouldAnimate.value else () => true)))
  }

  /** Without a `computeScrollOffset` hook, every animation scrolls to the
      top of the page. */
  lemma DefaultScrollOffsetIsTop(options: Options, d: Descriptor)
    requires options.computeScrollOffset.None?
    ensures MakeConfig(Some(options)).value.cb.computeScrollOffset(d) == 0
  {
  }

  /** The scroll settings `register` gives a descriptor. Scrolling is on
      whenever the default is, which the constructor makes always. */
  function Resolve(opts: Option<RegisterOptions>, defaults: Defaults): (s: Defaults)
    ensures s.shouldScroll <==> defaults.shouldScroll || (opts.Some? && opts.value.shouldScroll == Some(true))
    ensures opts.Some? && opts.value.scrollTiming.Some? && opts.value.scrollTiming.value != "" ==>
              s.scrollTiming == opts.value.scrollTiming.value
    ensures opts.None? || opts.value.scrollTiming.None? || opts.value.scrollTiming.value == "" ==>
              s.scrollTiming == defaults.scrollTiming
  {
    var o := if opts.Some? then opts.value else RegisterOptions(None, None);
    Defaults(OrBool(o.shouldScroll, defaults.shouldScroll), OrString(o.scrollTiming, defaults.scrollTiming))
  }

  /** Every registered descriptor sits under its own pattern, once. */
  ghost predicate WellKeyed(reg: Entries<Descriptor>)
  {
    KeysDistinct(reg) && forall e :: e in reg ==> e.1.regex == e.0
  }

  /** Every scheduled scroll runs for the fixed duration. */
  ghost predicate FixedScrolls(q: seq<Task>)
  {
    forall t :: t in q && t.Scroll? ==> t.duration == ScrollDuration
  }

  /** An animation descriptor; a matching click sets `anchor` and `path`. */
  class Descriptor {
    var anchor: Option<Node>
    const bodyClass: string
    const finalElement: Option<string>    // the id, when getElementById found it
    var path: Option<string>
    const regex: string
    const shouldScroll: bool
    const scrollTiming: string

    constructor (regex: string, finalElement: Option<string>, bodyClass: string, s: Defaults)
      ensures anchor.None? && path.None?
      ensures this.regex == regex && this.finalElement == finalElement && this.bodyClass == bodyClass
      ensures shouldScroll == s.shouldScroll && scrollTiming == s.scrollTiming
    {
      anchor := None;
      this.bodyClass := bodyClass;
      this.finalElement := finalElement;
      path := None;
      this.regex := regex;
      shouldScroll := s.shouldScroll;
      scrollTiming := s.scrollTiming;
    }
  }

  /** The closures the engine schedules. */
  datatype Action =
    | StartAnimation(d: Descriptor)   // set `targetUrl` and the class string
    | FollowLink                      // navigate to `targetUrl`

  datatype Task =
    | Timer(delay: nat, action: Action)
    | Scroll(offset: int, duration: int, callback: Option<Action>)

  datatype Outcome = Returned | Threw

  /** `_getTargetAnchor`: the event target if it has an `href`, else the
      first entry of the event path that has one. */
  function EventAnchor(target: Node, path: seq<Node>): (r: Option<Node>)
    ensures HasHref(target) ==> r == Some(target)
    ensures !HasHref(target) ==>
              (r.None? <==> forall j :: 0 <= j < |path| ==> !HasHref(path[j]))
    ensures !HasHref(target) && r.Some? ==>
              exists i :: 0 <= i < |path| && r.value == path[i] && HasHref(path[i])
                          && forall j :: 0 <= j < i ==> !HasHref(path[j])
  {
    if HasHref(target) then Some(target)
    else match FirstHref(path, |path|, 0)
         case None => None
         case Some(i) => Some(path[i])
  }

  method GetTargetAnchor(target: Node, path: seq<Node>) returns (r: Option<Node>)
    ensures r == EventAnchor(target, path)
  {
    if HasHref(target) {
      return Some(target);
    }
    for i := 0 to |path|
      invariant FirstHref(path, |path|, i) == FirstHref(path, |path|, 0)
    {
      if HasHref(path[i]) {
        return Some(path[i]);
      }
    }
    return None;
  }

  class Engine {
    const defaults: Defaults
    const settings: Settings
    const cb: Callbacks
    const regexTest: (string, string) -> bool   // `new RegExp(k).test(p)`
    var animations: Entries<Descriptor>
    var currentAnimation: Descriptor?
    var path: Option<string>        // `this.path`: read by the click guard, never assigned
    var targetUrl: Option<string>   // `this.targetUrl`; `None` until first assigned
    var host: Host
    var pending: seq<Task>

    ghost predicate Valid()
      reads this
    {
      && WellKeyed(animations)
      && path.None?
      && FixedScrolls(pending)
    }

    ghost function Descriptors(): set<Descriptor>
      reads this
    {
      set e | e in animations :: e.1
    }

    constructor (options: Options, page: Host, regexTest: (string, string) -> bool)
      ensures Valid()
      ensures var c := MakeConfig(Some(options)).value;
              defaults == c.defaults && settings == c.settings && cb == c.cb
      ensures this.regexTest == regexTest
      ensures animations == [] && currentAnimation == null && pending == [] && targetUrl.None?
      ensures host == if page.linkCount == 0 then page.(errors := page.errors + ["No links found in page."]) else page
    {
      var c := MakeConfig(Some(options)).value;
      defaults := c.defaults;
      settings := c.settings;
      cb := c.cb;
      this.regexTest := regexTest;
      animations := [];
      currentAnimation := null;
      path := None;
      targetUrl := None;
      if page.linkCount == 0 {
        host := page.(errors := page.errors + ["No links found in page."]);
      } else {
        host := page;
      }
      pending := [];
    }

    /** `register`: stores a fresh descriptor under `urlRegex`, replacing any
        earlier one in place; logs an error when the final element is missing. */
    method Register(urlRegex: string, finalElementId: string, bodyClass: string,
                    options: Option<RegisterOptions>) returns (d: Descriptor)
      requires Valid()
      modifies this
      ensures Valid() && fresh(d)
      ensures animations == Put(old(animations), urlRegex, d)
      ensures d.regex == urlRegex && d.bodyClass == bodyClass && d.anchor.None? && d.path.None?
      ensures d.finalElement == if finalElementId in old(host.elements) then Some(finalElementId) else None
      ensures var s := Resolve(options, defaults);
              d.shouldScroll == s.shouldScroll && d.scrollTiming == s.scrollTiming
      ensures host == old(host).(errors := old(host.errors) +
                (if finalElementId in old(host.elements) then [] else ["No element with ID " + finalElementId]))
      ensures currentAnimation == old(currentAnimation) && pending == old(pending)
      ensures targetUrl == old(targetUrl)
    {
      var element := if finalElementId in host.elements then Some(finalElementId) else None;
      d := new Descriptor(urlRegex, element, bodyClass, Resolve(options, defaults));
      if element.None? {
        host := host.(errors := host.errors + ["No element with ID " + finalElementId]);
      }
      PutLookup(animations, urlRegex, d);
      animations := Put(animations, urlRegex, d);
    }

    /** `deregister`: deletes the key; an unknown key only logs an error. */
    method Deregister(urlRegex: string)
      requires Valid()
      modifies this
      ensures Valid()
      ensures animations == Remove(old(animations), urlRegex)
      ensures host == old(host).(errors := old(host.errors) +
                (if urlRegex in Keys(old(animations)) then [] else ["No animation registered with regex " + urlRegex]))
      ensures currentAnimation == old(currentAnimation) && pending == old(pending)
      ensures targetUrl == old(targetUrl)
    {
      var known := Lookup(animations, urlRegex).Some?;
      RemoveKeepsDistinct(animations, urlRegex);
      var r := Remove(animations, urlRegex);
      assert WellKeyed(r);
      if !known {
        host := host.(errors := host.errors + ["No animation registered with regex " + urlRegex]);
      }
      animations := r;
    }

    /** The `for ... in` scan of `_onClick`. */
    method FindMatch(p: string) returns (r: Option<nat>)
      requires Valid()
      ensures r == FirstMatch(animations, regexTest, p, 0)
    {
      for i := 0 to |animations|
        invariant FirstMatch(animations, regexTest, p, i) == FirstMatch(animations, regexTest, p, 0)
      {
        assert animations[i] in animations;
        if regexTest(animations[i].1.regex, p) {
          return Some(i);
        }
      }
      return None;
    }

    /** The click guard, with the same never-assigned `this.path`. */
    ghost predicate Admits()
      reads this
    {
      currentAnimation == null && cb.shouldAnimate()
      && (settings.animateLinksToSelf || path != Some(host.pathname))
    }

    /** The registry position a click starts, if any. */
    ghost function Chosen(target: Node, epath: seq<Node>): (r: Option<nat>)
      reads this
    {
      match EventAnchor(target, epath)
      case None => None
      case Some(a) =>
        if Admits() then FirstMatch(animations, regexTest, AnchorPath(a.href.value, host.origin), 0) else None
    }

    /** The state `_animate(d)` leaves, from `h0`, `q0` and `c0`. */
    ghost predicate Started(h0: Host, q0: seq<Task>, c0: Descriptor?, u0: Option<string>, d: Descriptor)
      reads this, d
    {
      var h1 := h0.(hookCalls := h0.hookCalls + [d.regex]);
      match d.finalElement
      case None => host == h1 && pending == q0 && currentAnimation == c0 && targetUrl == u0
      case Some(el) =>
        var h2 := h1.(bound := h1.bound + {el});
        var y := cb.computeScrollOffset(d);
        && currentAnimation == d
        && match ModeOf(d.shouldScroll, d.scrollTiming)
           case ScrollThenStart =>
             host == h2 && targetUrl == u0
             && pending == q0 + [Scroll(y, ScrollDuration, Some(StartAnimation(d)))]
           case StartWhileScrolling =>
             host == h2 && targetUrl == u0
             && pending == q0 + [Timer(0, StartAnimation(d)), Scroll(y, ScrollDuration, None)]
           case StartNow =>
             host == h2.(className := d.bodyClass) && targetUrl == d.path && pending == q0
    }

    /** The state running action `a` leaves, from `h0`, `q0` and `u0`. */
    ghost predicate Performed(a: Action, h0: Host, q0: seq<Task>, u0: Option<string>)
      reads this, if a.StartAnimation? then {a.d} else {}
    {
      && pending == q0
      && match a
         case StartAnimation(d) => host == h0.(className := d.bodyClass) && targetUrl == d.path
         case FollowLink =>
           host == h0.(navigations := h0.navigations + [NavFor(h0.pathname, u0)]) && targetUrl == u0
    }

    /** `_animate`. */
    method Animate(d: Descriptor) returns (outcome: Outcome)
      requires Valid()
      modifies this
      ensures Valid() && animations == old(animations) && path == old(path)
      ensures Started(old(host), old(pending), old(currentAnimation), old(targetUrl), d)
      ensures outcome == Threw <==> d.finalElement.None?
    {
      host := host.(hookCalls := host.hookCalls + [d.regex]);
      if d.finalElement.None? {
        return Threw;
      }
      host := host.(bound := host.bound + {d.finalElement.value});
      currentAnimation := d;
      var y := cb.computeScrollOffset(d);
      if d.shouldScroll && d.scrollTiming == "before" {
        pending := pending + [Scroll(y, ScrollDuration, Some(StartAnimation(d)))];
      } else if d.shouldScroll && d.scrollTiming == "during" {
        pending := pending + [Timer(0, StartAnimation(d)), Scroll(y, ScrollDuration, None)];
      } else {
        targetUrl := d.path;
        host := host.(className := d.bodyClass);
      }
      return Returned;
    }

    /** The matched branch of `_onClick`: prevents the default, stores the
        anchor and path on `d` and starts it. */
    method Begin(d: Descriptor, a: Node, p: string) returns (outcome: Outcome)
      requires Valid() && d in Descriptors()
      modifies this, d
      ensures Valid() && animations == old(animations) && path == old(path)
      ensures d.anchor == Some(a) && d.path == Some(p)
      ensures Started(old(host).(prevented := old(host.prevented) + 1), old(pending),
                      old(currentAnimation), old(targetUrl), d)
      ensures outcome == Threw <==> d.finalElement.None?
    {
      host := host.(prevented := host.prevented + 1);
      d.anchor := Some(a);
      d.path := Some(p);
      outcome := Animate(d);
    }

    /** `_onClick` on a click with event target `target` and event path `epath`. */
    method OnClick(target: Node, epath: seq<Node>) returns (outcome: Outcome)
      requires Valid()
      modifies this, Descriptors()
      ensures Valid() && animations == old(animations) && path == old(path)
      ensures EventAnchor(target, epath).None? ==>
                outcome == Threw && unchanged(this) && unchanged(Descriptors())
      ensures EventAnchor(target, epath).Some? && old(Chosen(target, epath)).None? ==>
                outcome == Returned && unchanged(this) && unchanged(Descriptors())
      ensures old(Chosen(target, epath)).Some? ==>
                var a := EventAnchor(target, epath).value;
                var d := animations[old(Chosen(target, epath)).value].1;
                && d.anchor == Some(a) && d.path == Some(AnchorPath(a.href.value, old(host.origin)))
                && unchanged(Descriptors() - {d})
                && Started(old(host).(prevented := old(host.prevented) + 1), old(pending),
                           old(currentAnimation), old(targetUrl), d)
                && (outcome == Threw <==> d.finalElement.None?)
    {
      var anchor := GetTargetAnchor(target, epath);
      if anchor.None? {
        return Threw;   // `anchor.href` on undefined
      }
      var a := anchor.value;
      var p := AnchorPath(a.href.value, host.origin);
      if currentAnimation == null && cb.shouldAnimate()
         && (settings.animateLinksToSelf || path != Some(host.pathname))
      {
        var m := FindMatch(p);
        assert m == Chosen(target, epath);
        if m.Some? {
          var d := animations[m.value].1;
          assert animations[m.value] in animations;
          outcome := Begin(d, a, p);
          return;
        }
      }
      return Returned;
    }

    /** Runs one scheduled action. */
    method Perform(a: Action)
      requires Valid()
      modifies this
      ensures Valid() && animations == old(animations) && path == old(path)
      ensures currentAnimation == old(currentAnimation)
      ensures Performed(a, old(host), old(pending), old(targetUrl))
    {
      match a
      case StartAnimation(d) =>
        targetUrl := d.path;
        host := host.(className := d.bodyClass);
      case FollowLink =>
        if targetUrl == Some(host.pathname) {
          host := host.(navigations := host.navigations + [Reload]);
        } else {
          host := host.(navigations := host.navigations + [Assign(targetUrl)]);
        }
    }

    /** `_onTransitionEnd`, delivered to the listener on element `el`: the
        slot is cleared before anything else happens. */
    method OnTransitionEnd(el: string)
      requires Valid()
      modifies this
      ensures Valid() && animations == old(animations) && path == old(path)
      ensures el !in old(host.bound) || old(currentAnimation) == null ==> unchanged(this)
      ensures el in old(host.bound) && old(currentAnimation) != null ==>
                var d := old(currentAnimation);
                && currentAnimation == null
                && if d.shouldScroll && d.scrollTiming == "after" then
                     && host == old(host) && targetUrl == old(targetUrl)
                     && pending == old(pending) + [Scroll(cb.computeScrollOffset(d), ScrollDuration, Some(FollowLink))]
                   else
                     Performed(FollowLink, old(host), old(pending), old(targetUrl))
    {
      if el !in host.bound || currentAnimation == null {
        return;
      }
      var d := currentAnimation;
      currentAnimation := null;
      if d.shouldScroll && d.scrollTiming == "after" {
        pending := pending + [Scroll(cb.computeScrollOffset(d), ScrollDuration, Some(FollowLink))];
        return;
      }
      Perform(FollowLink);
    }

    /** The environment runs pending task `i`; a scroll completes by setting
        the offset and then running its callback. */
    method Step(i: nat)
      requires Valid() && i < |pending|
      modifies this
      ensures Valid() && animations == old(animations) && path == old(path)
      ensures currentAnimation == old(currentAnimation)
      ensures var q0 := old(pending[..i] + pending[i + 1..]);
              match old(pending[i])
              case Timer(_, a) => Performed(a, old(host), q0, old(targetUrl))
              case Scroll(y, _, callback) =>
                var h1 := old(host).(scrollY := y);
                match callback
                case None => host == h1 && pending == q0 && targetUrl == old(targetUrl)
                case Some(a) => Performed(a, h1, q0, old(targetUrl))
    {
      var task := pending[i];
      assert task in pending;
      pending := pending[..i] + pending[i + 1..];
      assert forall t :: t in pending ==> t in old(pending);
      match task
      case Timer(_, a) =>
        Perform(a);
      case Scroll(y, _, callback) =>
        host := host.(scrollY := y);
        if callback.Some? {
          Perform(callback.value);
        }
    }
  }
}
