/** The transition engine of `src/pangea.js`: a registry of animations keyed
    by URL pattern, a single slot for the running transition, and the
    callbacks (timers, scroll completion, transition end) that move it on.
    Timers and scrolls are tasks in `pending`; the environment runs them one
    at a time, in any order, with `Step`. */
module Pangea {
  import opened Common
  import opened Registry

  const DefaultScrollDuration := 200
  const CleanupDelay := 100

  /** The constructor's `options`; `None` marks an absent property. */
  datatype Options = Options(
    shouldScroll: Option<bool>,
    scrollTiming: Option<string>,
    scrollDuration: Option<int>,
    animateLinksToSelf: Option<bool>,
    computeScrollOffset: Option<Descriptor -> int>,
    shouldAnimate: Option<(Node, string) -> bool>)

  /** `register`'s `options`. */
  datatype RegisterOptions = RegisterOptions(
    shouldScroll: Option<bool>,
    scrollTiming: Option<string>,
    scrollDuration: Option<int>)

  /** `this.defaults`: the scroll settings a registration falls back to. */
  datatype Defaults = Defaults(shouldScroll: bool, scrollTiming: string, scrollDuration: int)

  /** `this.settings`. */
  datatype Settings = Settings(animateLinksToSelf: bool)

  /** `this.cb`, the user hooks that compute values. */
  datatype Callbacks = Callbacks(
    computeScrollOffset: Descriptor -> int,
    shouldAnimate: (Node, string) -> bool)

  datatype Config = Config(defaults: Defaults, settings: Settings, cb: Callbacks)

  /** The constructor's reading of `options`. The source reads `options.*`
      rather than the guarded `opts.*`, so absent options throw a TypeError.
      `shouldScroll` is `options.shouldScroll || true`, hence always true. */
  function MakeConfig(options: Option<Options>): (r: Result<Config>)
    ensures r.Failure? <==> options.None?
    ensures r.Success? ==>
              var c := r.value;
              var o := options.value;
              && c.defaults.shouldScroll
              && (o.scrollTiming.Some? && o.scrollTiming.value != "" ==> c.defaults.scrollTiming == o.scrollTiming.value)
              && (o.scrollTiming.None? || o.scrollTiming.value == "" ==> c.defaults.scrollTiming == "before")
              && (o.scrollDuration.Some? && o.scrollDuration.value != 0 ==> c.defaults.scrollDuration == o.scrollDuration.value)
              && (o.scrollDuration.None? || o.scrollDuration.value == 0 ==> c.defaults.scrollDuration == DefaultScrollDuration)
              && c.defaults.scrollDuration != 0 && c.defaults.scrollTiming != ""
              && (c.settings.animateLinksToSelf <==> o.animateLinksToSelf == Some(true))
              && (o.computeScrollOffset.Some? ==> c.cb.computeScrollOffset == o.computeScrollOffset.value)
              && (o.shouldAnimate.Some? ==> c.cb.shouldAnimate == o.shouldAnimate.value)
              && (o.shouldAnimate.None? ==> forall a, p :: c.cb.shouldAnimate(a, p))
  {
    match options
    case None => Failure("TypeError: Cannot read properties of undefined")
    case Some(o) =>
      Success(Config(
        Defaults(OrBool(o.shouldScroll, true), OrString(o.scrollTiming, "before"),
                 OrInt(o.scrollDuration, DefaultScrollDuration)),
        Settings(OrBool(o.animateLinksToSelf, false)),
        Callbacks(
          if o.computeScrollOffset.Some? then o.computeScrollOffset.value else d => 0,
          if o.shouldAnimate.Some? then o.shouldAnimate.value else (a, p) => true)))
  }

  /** Without a `computeScrollOffset` hook, every animation scrolls to the
      top of the page. */
  lemma DefaultScrollOffsetIsTop(options: Options, d: Descriptor)
    requires options.computeScrollOffset.None?
    ensures MakeConfig(Some(options)).value.cb.computeScrollOffset(d) == 0
  {
  }

  /** The scroll settings `register` gives a descriptor: each option when
      truthy, else the engine default. With the constructor's defaults,
      scrolling is always on and a missing or zero duration becomes 200. */
  function Resolve(opts: Option<RegisterOptions>, defaults: Defaults): (s: Defaults)
    ensures defaults.shouldScroll ==> s.shouldScroll
    ensures s.shouldScroll <==> defaults.shouldScroll || (opts.Some? && opts.value.shouldScroll == Some(true))
    ensures opts.Some? && opts.value.scrollTiming.Some? && opts.value.scrollTiming.value != "" ==>
              s.scrollTiming == opts.value.scrollTiming.value
    ensures opts.None? || opts.value.scrollTiming.None? || opts.value.scrollTiming.value == "" ==>
              s.scrollTiming == defaults.scrollTiming
    ensures opts.Some? && opts.value.scrollDuration.Some? && opts.value.scrollDuration.value != 0 ==>
              s.scrollDuration == opts.value.scrollDuration.value
    ensures opts.None? || opts.value.scrollDuration.None? || opts.value.scrollDuration.value == 0 ==>
              s.scrollDuration == defaults.scrollDuration
    ensures defaults.scrollDuration != 0 ==> s.scrollDuration != 0
  {
    var o := if opts.Some? then opts.value else RegisterOptions(None, None, None);
    Defaults(OrBool(o.shouldScroll, defaults.shouldScroll),
             OrString(o.scrollTiming, defaults.scrollTiming),
             OrInt(o.scrollDuration, defaults.scrollDuration))
  }

  /** Registration with the constructor's defaults: for every pair of option
      sets, scrolling is on and the duration is never zero; a missing or zero
      duration is 200 unless the constructor was given another one. */
  lemma RegisteredScrollSettings(options: Options, opts: Option<RegisterOptions>)
    ensures var s := Resolve(opts, MakeConfig(Some(options)).value.defaults);
            && s.shouldScroll
            && s.scrollDuration != 0
            && s.scrollTiming != ""
            && (((opts.None? || opts.value.scrollDuration.None? || opts.value.scrollDuration.value == 0)
                 && (options.scrollDuration.None? || options.scrollDuration.value == 0))
                ==> s.scrollDuration == DefaultScrollDuration)
  {
  }

  /** Every registered descriptor sits under its own pattern, once. */
  ghost predicate WellKeyed(reg: Entries<Descriptor>)
  {
    KeysDistinct(reg) && forall e :: e in reg ==> e.1.regex == e.0
  }

  /** An animation descriptor. Only `anchor` and `path` change after
      registration: a matching click sets them. */
  class Descriptor {
    var anchor: Option<Node>
    const bodyClass: string
    const finalElement: Option<string>    // the id, when getElementById found it
    var path: Option<string>
    const regex: string                   // the pattern `regex` is built from
    const shouldScroll: bool
    const scrollTiming: string
    const scrollDuration: int

    constructor (regex: string, finalElement: Option<string>, bodyClass: string, s: Defaults)
      ensures anchor.None? && path.None?
      ensures this.regex == regex && this.finalElement == finalElement && this.bodyClass == bodyClass
      ensures shouldScroll == s.shouldScroll && scrollTiming == s.scrollTiming
      ensures scrollDuration == s.scrollDuration
    {
      anchor := None;
      this.bodyClass := bodyClass;
      this.finalElement := finalElement;
      path := None;
      this.regex := regex;
      shouldScroll := s.shouldScroll;
      scrollTiming := s.scrollTiming;
      scrollDuration := s.scrollDuration;
    }
  }

  /** The closures the engine schedules. */
  datatype Action =
    | StartAnimation(d: Descriptor)   // append the body class
    | FollowLink(d: Descriptor)       // schedule the cleanup, then navigate
    | Cleanup(d: Descriptor)          // undo the class, unbind, clear the slot

  /** A pending callback: a timer, or a `scrollTo` that, when complete, sets
      the scroll offset and then runs its callback. */
  datatype Task =
    | Timer(delay: nat, action: Action)
    | Scroll(offset: int, duration: int, callback: Option<Action>)

  /** How a handler ended: normally, or with an uncaught TypeError. */
  datatype Outcome = Returned | Threw

  /** An action throws only when it dereferences a missing final element. */
  predicate Throws(a: Action)
  {
    a.Cleanup? && a.d.finalElement.None?
  }

  /** `_getTargetAnchor`: walks from the event target (`chain[0]`) towards
      the root and returns the position of the first node that has an
      `href`, looking only at nodes that still have a parent. */
  method GetTargetAnchor(chain: seq<Node>) returns (r: Option<nat>)
    requires chain != []
    ensures r == FirstHref(chain, |chain| - 1, 0)
  {
    var target := 0;
    while target < |chain| - 1
      invariant 0 <= target <= |chain| - 1
      invariant FirstHref(chain, |chain| - 1, target) == FirstHref(chain, |chain| - 1, 0)
    {
      if HasHref(chain[target]) {
        return Some(target);
      }
      target := target + 1;
    }
    return None;
  }

  /** The anchor a click resolves to and its origin-stripped path. */
  function ClickTarget(chain: seq<Node>, origin: string): (r: Option<(Node, string)>)
    requires chain != []
    ensures r.None? <==> forall j :: 0 <= j < |chain| - 1 ==> !HasHref(chain[j])
    ensures r.Some? ==> HasHref(r.value.0) && r.value.1 == AnchorPath(r.value.0.href.value, origin)
    ensures r.Some? ==> exists i :: 0 <= i < |chain| - 1 && r.value.0 == chain[i]
                                    && forall j :: 0 <= j < i ==> !HasHref(chain[j])
  {
    match FirstHref(chain, |chain| - 1, 0)
    case None => None
    case Some(i) => Some((chain[i], AnchorPath(chain[i].href.value, origin)))
  }

  class Engine {
    const defaults: Defaults
    const settings: Settings
    const cb: Callbacks
    const regexTest: (string, string) -> bool   // `new RegExp(k).test(p)`
    var animations: Entries<Descriptor>
    var currentAnimation: Descriptor?
    var path: Option<string>    // `this.path`: read by the click guard, never assigned
    var host: Host
    var pending: seq<Task>

    ghost predicate Valid()
      reads this
    {
      && WellKeyed(animations)
      && path.None?
    }

    ghost function Descriptors(): set<Descriptor>
      reads this
    {
      set e | e in animations :: e.1
    }

    /** The constructor, given options that are present (absent ones throw,
        see `MakeConfig`). */
    constructor (options: Options, page: Host, regexTest: (string, string) -> bool)
      ensures Valid()
      ensures var c := MakeConfig(Some(options)).value;
              defaults == c.defaults && settings == c.settings && cb == c.cb
      ensures this.regexTest == regexTest
      ensures animations == [] && currentAnimation == null && pending == []
      ensures host == if page.linkCount == 0 then page.(errors := page.errors + ["No links found in page."]) else page
    {
      var c := MakeConfig(Some(options)).value;
      defaults := c.defaults;
      settings := c.settings;
      cb := c.cb;
      this.regexTest := regexTest;
      animations := [];
      currentAnimation := null;
      path := None;
      if page.linkCount == 0 {
        host := page.(errors := page.errors + ["No links found in page."]);
      } else {
        host := page;
      }
      pending := [];
    }

    /** `register`: stores a fresh descriptor under `urlRegex`, replacing any
        earlier one in place; logs an error (and stores it anyway) when the
        final element does not exist. Returns the new descriptor. */
    method Register(urlRegex: string, finalElementId: string, bodyClass: string,
                    options: Option<RegisterOptions>) returns (d: Descriptor)
      requires Valid()
      modifies this
      ensures Valid() && fresh(d)
      ensures animations == Put(old(animations), urlRegex, d)
      ensures d.regex == urlRegex && d.bodyClass == " " + bodyClass + " "
      ensures d.anchor.None? && d.path.None?
      ensures d.finalElement == if finalElementId in old(host.elements) then Some(finalElementId) else None
      ensures var s := Resolve(options, defaults);
              d.shouldScroll == s.shouldScroll && d.scrollTiming == s.scrollTiming
              && d.scrollDuration == s.scrollDuration
      ensures host == old(host).(errors := old(host.errors) +
                (if finalElementId in old(host.elements) then [] else ["No element with ID " + finalElementId]))
      ensures currentAnimation == old(currentAnimation) && pending == old(pending) && path == old(path)
    {
      var element := if finalElementId in host.elements then Some(finalElementId) else None;
      d := new Descriptor(urlRegex, element, " " + bodyClass + " ", Resolve(options, defaults));
      if element.None? {
        host := host.(errors := host.errors + ["No element with ID " + finalElementId]);
      }
      PutLookup(animations, urlRegex, d);
      animations := Put(animations, urlRegex, d);
    }

    /** `deregister`: deletes the key; an unknown key only logs an error. */
    method Deregister(urlRegex: string)
      requires Valid()
      modifies this
      ensures Valid()
      ensures animations == Remove(old(animations), urlRegex)
      ensures host == old(host).(errors := old(host.errors) +
                (if urlRegex in Keys(old(animations)) then [] else ["No animation registered with regex " + urlRegex]))
      ensures currentAnimation == old(currentAnimation) && pending == old(pending) && path == old(path)
    {
      var known := Lookup(animations, urlRegex).Some?;
      RemoveKeepsDistinct(animations, urlRegex);
      var r := Remove(animations, urlRegex);
      assert WellKeyed(r);
      if !known {
        host := host.(errors := host.errors + ["No animation registered with regex " + urlRegex]);
      }
      animations := r;
    }

    /** The `for ... in` scan of `_onClick`: the first registered pattern, in
        iteration order, whose regular expression accepts `p`. */
    method FindMatch(p: string) returns (r: Option<nat>)
      requires Valid()
      ensures r == FirstMatch(animations, regexTest, p, 0)
    {
      for i := 0 to |animations|
        invariant FirstMatch(animations, regexTest, p, i) == FirstMatch(animations, regexTest, p, 0)
      {
        assert animations[i] in animations;
        if regexTest(animations[i].1.regex, p) {
          return Some(i);
        }
      }
      return None;
    }

    /** The click guard: no transition running, the hook agrees, and the
        self-link test, which compares `this.path` (not the clicked path). */
    ghost predicate Admits(a: Node, p: string)
      reads this
    {
      currentAnimation == null && cb.shouldAnimate(a, p)
      && (settings.animateLinksToSelf || path != Some(host.pathname))
    }

    /** The registry position a click starts, if any. */
    ghost function Chosen(chain: seq<Node>): (r: Option<nat>)
      requires chain != []
      reads this
    {
      match ClickTarget(chain, host.origin)
      case None => None
      case Some((a, p)) => if Admits(a, p) then FirstMatch(animations, regexTest, p, 0) else None
    }

    /** Because `this.path` is never assigned, the self-link test always
        passes: links to the current page are animated whatever
        `animateLinksToSelf` says. */
    lemma SelfLinksAlwaysAdmitted(a: Node, p: string)
      requires Valid() && p == host.pathname
      ensures Admits(a, p) <==> currentAnimation == null && cb.shouldAnimate(a, p)
    {
    }

    /** The state `_animate(d)` leaves, from host `h0`, tasks `q0` and slot
        `c0`: the hook is called, then the listener is bound and the slot set
        (the bind throws when the final element is missing), and then the
        class is added after the scroll, on a 0 ms timer, or at once. */
    ghost predicate Started(h0: Host, q0: seq<Task>, c0: Descriptor?, d: Descriptor)
      reads this
    {
      var h1 := h0.(hookCalls := h0.hookCalls + [d.regex]);
      match d.finalElement
      case None => host == h1 && pending == q0 && currentAnimation == c0
      case Some(el) =>
        var h2 := h1.(bound := h1.bound + {el});
        var y := cb.computeScrollOffset(d);
        && currentAnimation == d
        && match ModeOf(d.shouldScroll, d.scrollTiming)
           case ScrollThenStart =>
             host == h2 && pending == q0 + [Scroll(y, d.scrollDuration, Some(StartAnimation(d)))]
           case StartWhileScrolling =>
             host == h2 && pending == q0 + [Timer(0, StartAnimation(d)), Scroll(y, d.scrollDuration, None)]
           case StartNow =>
             host == h2.(className := h2.className + d.bodyClass) && pending == q0
    }

    /** The state running action `a` leaves, from `h0`, `q0` and `c0`. */
    ghost predicate Performed(a: Action, h0: Host, q0: seq<Task>, c0: Descriptor?)
      reads this, a.d
    {
      match a
      case StartAnimation(d) =>
        host == h0.(className := h0.className + d.bodyClass) && pending == q0 && currentAnimation == c0
      case FollowLink(d) =>
        && host == h0.(navigations := h0.navigations + [NavFor(h0.pathname, d.path)])
        && pending == q0 + [Timer(CleanupDelay, Cleanup(d))]
        && currentAnimation == c0
      case Cleanup(d) =>
        var h1 := h0.(className := ReplaceFirst(h0.className, d.bodyClass, ""));
        match d.finalElement
        case None => host == h1 && pending == q0 && currentAnimation == c0
        case Some(el) => host == h1.(bound := h1.bound - {el}) && pending == q0 && currentAnimation == null
    }

    /** `_animate`. */
    method Animate(d: Descriptor) returns (outcome: Outcome)
      requires Valid()
      modifies this
      ensures Valid() && animations == old(animations) && path == old(path)
      ensures Started(old(host), old(pending), old(currentAnimation), d)
      ensures outcome == Threw <==> d.finalElement.None?
    {
      host := host.(hookCalls := host.hookCalls + [d.regex]);
      if d.finalElement.None? {
        return Threw;
      }
      host := host.(bound := host.bound + {d.finalElement.value});
      currentAnimation := d;
      var y := cb.computeScrollOffset(d);
      if d.shouldScroll && d.scrollTiming == "before" {
        pending := pending + [Scroll(y, d.scrollDuration, Some(StartAnimation(d)))];
      } else if d.shouldScroll && d.scrollTiming == "during" {
        pending := pending + [Timer(0, StartAnimation(d)), Scroll(y, d.scrollDuration, None)];
      } else {
        host := host.(className := host.className + d.bodyClass);
      }
      return Returned;
    }

    /** The matched branch of `_onClick`: prevents the default, stores the
        anchor and path on `d` and starts it. */
    method Begin(d: Descriptor, anchor: Node, p: string) returns (outcome: Outcome)
      requires Valid() && d in Descriptors()
      modifies this, d
      ensures Valid() && animations == old(animations) && path == old(path)
      ensures d.anchor == Some(anchor) && d.path == Some(p)
      ensures Started(old(host).(prevented := old(host.prevented) + 1), old(pending), old(currentAnimation), d)
      ensures outcome == Threw <==> d.finalElement.None?
    {
      host := host.(prevented := host.prevented + 1);
      d.anchor := Some(anchor);
      d.path := Some(p);
      outcome := Animate(d);
    }

    /** `_onClick` on a click whose target and ancestors are `chain`, target
        first and the root last. */
    method OnClick(chain: seq<Node>) returns (outcome: Outcome)
      requires chain != [] && Valid()
      modifies this, Descriptors()
      ensures Valid() && animations == old(animations) && path == old(path)
      ensures old(ClickTarget(chain, host.origin)).None? ==>
                outcome == Threw && unchanged(this) && unchanged(Descriptors())
      ensures old(ClickTarget(chain, host.origin)).Some? && old(Chosen(chain)).None? ==>
                outcome == Returned && unchanged(this) && unchanged(Descriptors())
      ensures old(Chosen(chain)).Some? ==>
                var t := old(ClickTarget(chain, host.origin)).value;
                var d := animations[old(Chosen(chain)).value].1;
                && d.anchor == Some(t.0) && d.path == Some(t.1)
                && unchanged(Descriptors() - {d})
                && Started(old(host).(prevented := old(host.prevented) + 1), old(pending), old(currentAnimation), d)
                && (outcome == Threw <==> d.finalElement.None?)
    {
      var i := GetTargetAnchor(chain);
      if i.None? {
        return Threw;   // `anchor.href` on undefined
      }
      var anchor := chain[i.value];
      var p := AnchorPath(anchor.href.value, host.origin);
      if currentAnimation == null && cb.shouldAnimate(anchor, p)
         && (settings.animateLinksToSelf || path != Some(host.pathname))
      {
        var m := FindMatch(p);
        assert m == Chosen(chain);
        if m.Some? {
          var d := animations[m.value].1;
          assert animations[m.value] in animations;
          outcome := Begin(d, anchor, p);
          return;
        }
      }
      return Returned;
    }

    /** Runs one scheduled action. */
    method Perform(a: Action) returns (outcome: Outcome)
      requires Valid()
      modifies this
      ensures Valid() && animations == old(animations) && path == old(path)
      ensures Performed(a, old(host), old(pending), old(currentAnimation))
      ensures outcome == Threw <==> Throws(a)
    {
      match a
      case StartAnimation(d) =>
        host := host.(className := host.className + d.bodyClass);
        return Returned;
      case FollowLink(d) =>
        pending := pending + [Timer(CleanupDelay, Cleanup(d))];
        if d.path == Some(host.pathname) {
          host := host.(navigations := host.navigations + [Reload]);
        } else {
          host := host.(navigations := host.navigations + [Assign(d.path)]);
        }
        return Returned;
      case Cleanup(d) =>
        host := host.(className := ReplaceFirst(host.className, d.bodyClass, ""));
        if d.finalElement.None? {
          return Threw;   // removeEventListener on null
        }
        host := host.(bound := host.bound - {d.finalElement.value});
        currentAnimation := null;
        return Returned;
    }

    /** `_onTransitionEnd`, delivered to the listener on element `el`. */
    method OnTransitionEnd(el: string) returns (outcome: Outcome)
      requires Valid()
      modifies this
      ensures Valid() && animations == old(animations) && path == old(path)
      ensures el !in old(host.bound) || old(currentAnimation) == null ==> unchanged(this) && outcome == Returned
      ensures el in old(host.bound) && old(currentAnimation) != null ==>
                var d := old(currentAnimation);
                if d.shouldScroll && d.scrollTiming == "after" then
                  && host == old(host) && currentAnimation == d
                  && pending == old(pending) + [Scroll(cb.computeScrollOffset(d), d.scrollDuration, Some(FollowLink(d)))]
                else
                  Performed(FollowLink(d), old(host), old(pending), old(currentAnimation))
      ensures outcome == Returned
    {
      if el !in host.bound || currentAnimation == null {
        return Returned;
      }
      var d := currentAnimation;
      if d.shouldScroll && d.scrollTiming == "after" {
        pending := pending + [Scroll(cb.computeScrollOffset(d), d.scrollDuration, Some(FollowLink(d)))];
        return Returned;
      }
      outcome := Perform(FollowLink(d));
    }

    /** The environment runs pending task `i`. A finished scroll sets the
        offset and then runs its callback; a scroll with a negative duration
        never finishes (`elapsed / duration` stays below 1), so it stays. */
    method Step(i: nat) returns (outcome: Outcome)
      requires Valid() && i < |pending|
      modifies this
      ensures Valid() && animations == old(animations) && path == old(path)
      ensures var q0 := old(pending[..i] + pending[i + 1..]);
              match old(pending[i])
              case Timer(_, a) =>
                Performed(a, old(host), q0, old(currentAnimation)) && (outcome == Threw <==> Throws(a))
              case Scroll(y, duration, callback) =>
                if duration < 0 then unchanged(this) && outcome == Returned
                else
                  var h1 := old(host).(scrollY := y);
                  match callback
                  case None =>
                    host == h1 && pending == q0 && currentAnimation == old(currentAnimation) && outcome == Returned
                  case Some(a) =>
                    Performed(a, h1, q0, old(currentAnimation)) && (outcome == Threw <==> Throws(a))
    {
      var task := pending[i];
      if task.Scroll? && task.duration < 0 {
        return Returned;
      }
      pending := pending[..i] + pending[i + 1..];
      match task
      case Timer(_, a) =>
        outcome := Perform(a);
      case Scroll(y, _, callback) =>
        host := host.(scrollY := y);
        if callback.Some? {
          outcome := Perform(callback.value);
        } else {
          outcome := Returned;
        }
    }
  }
}
