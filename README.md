# Page-transition engine of pangea.js, modelled in Dafny

Pangea intercepts clicks on in-site links. It plays a registered CSS
animation by adding a class to `<body>`, and it can scroll the page before,
during or after the animation. When the animation's last element fires
`transitionend`, it navigates. This project models that engine twice: the
current one in `src/pangea.js` and the older variant in `src/pageanimation.js`.
The model follows the code as written, quirks included.

- `common.dfy`: shared pieces. A DOM node (only its `href` matters) and the
  `Host` record, which holds the browser state the engines touch: origin,
  pathname, `scrollY`, `body.className`, the element ids in the document,
  the elements carrying the transition-end listener, and logs of
  navigations, `preventDefault` calls, `console.error` messages and
  `beforeAnimationStart` calls. Also here: the string search and
  first-occurrence replacement behind `_getAnchorPath` and the class
  cleanup, plus the spec function of the anchor walk.
- `registry.dfy`: `this.animations`, the JavaScript object used as a
  dictionary. It is a sequence of (pattern, descriptor) entries in
  `for ... in` order. Overwriting a key keeps its place. Delete followed by
  re-add moves the key to the end.
- `pangea.dfy`: the current engine. `Descriptor` and `Engine` are classes
  whose fields change in place. The single slot is `currentAnimation`.
  Every later step is a task in `pending`: a timer, or a `scrollTo` that
  completes by setting the scroll offset and then runs its callback. The
  environment runs one task at a time, in any order, with `Step`.
- `pageanimation.dfy`: the older engine, with the same shape.
- `scenarios.dfy`: client runs proved only from the contracts.
  One run of the current engine is split into three methods.
  `PangeaBeforeTiming` registers `/about` with "before" timing and clicks a
  link to it, which schedules the scroll first. `PangeaWhileRunning` shows a
  second click is ignored and the class is added once the scroll completes.
  `PangeaFinish` shows the transition end navigates by assignment and the
  cleanup restores the class string. Each method ends by calling the next,
  so the end state of one is proved to meet the next one's preconditions.
  `PageAnimationSamePath`: a link to the current page ends in a reload, and
  a second transition end is ignored.

Quirks of the source that the model keeps, each with the member that
states it:

- `options.shouldScroll || true` makes scrolling always on.
  Stated by `MakeConfig`, `Resolve` and `RegisteredScrollSettings`.
- The constructors read `options.*` instead of `opts.*`, so they throw when
  options are absent. Stated by `MakeConfig`, which returns `Failure`.
- The self-link guard compares `this.path`, which is never assigned, so
  links to the current page animate even when `animateLinksToSelf` is false.
  Stated by `SelfLinksAlwaysAdmitted`. The program's own comments intend
  otherwise: the option's doc comment (src/pangea.js:82-84) describes it as
  "whether or not links to the current page should be ignored", and the
  guard's comment (src/pangea.js:342-343) says the guard keeps a link to the
  current page from animating. The model follows the code.
- `_onClick` reads `anchor.href` even when no anchor was found, which
  throws. Modelled by `OnClick`'s `Threw` outcome.
- A descriptor whose final element is missing is still stored. Clicking its
  link calls `preventDefault` and `beforeAnimationStart`, then throws in
  `addEventListener`, so the slot stays empty.
- Pangea keeps the slot set until the 100 ms cleanup. Each transition end
  before then navigates again and schedules another cleanup. The older
  engine clears the slot at once.
- The older engine overwrites `className` wholesale. Pangea appends a
  space-padded token and later removes its first occurrence. This gives back
  the old class string only when the token has no earlier occurrence
  (`RemoveAppendedToken`). `RemoveAppendedTokenCanMerge` shows a class
  string for which it does not.
- A Pangea scroll with a negative duration never completes, because
  `elapsed / duration` stays below 1. Its callback never runs.

## Model

| member | source | states |
|---|---|---|
| `Common.IndexFrom` | src/pangea.js:52 | the result is the first position at or after `i` where the pattern occurs; with no result, no position at or after `i` has one |
| `Common.IndexOf` | src/pangea.js:52 | `indexOf`: the first occurrence, and no result exactly when the pattern occurs nowhere |
| `Common.ReplaceFirst` | src/pangea.js:277 | `replace` with a string pattern: the string is unchanged without an occurrence; otherwise the text before the first occurrence is kept, and the replacement and the rest follow it |
| `Common.AnchorPath` | src/pangea.js:51-53 | `_getAnchorPath`: the href is unchanged when the origin does not occur; exactly the remainder when the href starts with the origin; otherwise shorter by the origin's length |
| `Common.AnchorPathOfInSiteLink` | src/pageanimation.js:54-56 | the path of `origin + rest` is `rest` (the same function in both files) |
| `Common.RemoveAppendedToken` | src/pangea.js:317 | appending the padded class token and then removing its first occurrence restores the prior className when the token has no earlier occurrence |
| `Common.RemoveAppendedTokenCanMerge` | src/pangea.js:277 | a concrete className where the cleanup removes a straddling occurrence and does not restore the string |
| `Common.FirstHref` | src/pangea.js:35-43 | the first node below the bound that has an `href`; every node before it lacks one; no result exactly when none has one |
| `Common.NavFor` | src/pangea.js:282-286 | reload exactly when the target equals `pathname`, otherwise assignment of the target |
| `Common.ModeOf` | src/pangea.js:320-327 | the before / during / otherwise branching of `_animate`, as an iff per branch |
| `Registry.Position` | src/pangea.js:191 | the position holds the key, and there is none exactly when the key is absent |
| `Registry.Lookup` | src/pangea.js:191 | `animations[k]` is undefined exactly when `k` is absent, else the entry's descriptor |
| `Registry.Put` | src/pangea.js:177 | an existing key is overwritten in its position and every other entry keeps its position; a new key is appended; no other entry appears |
| `Registry.Remove` | src/pangea.js:196 | `delete`: exactly the entries with other keys remain, and the key is gone |
| `Registry.RemoveKeepsOrder` | src/pangea.js:196 | `delete` keeps the remaining entries in their iteration order: deleting from a registry with one more entry at the end gives the shorter registry's result followed by that entry unless it has the deleted key |
| `Registry.PutLookup` | src/pangea.js:177 | after `register(k, ...)`, `animations[k]` is the new descriptor, every other key is unchanged, keys stay distinct |
| `Registry.RemoveKeepsDistinct` | src/pangea.js:196 | deleting keeps keys distinct |
| `Registry.RemoveAbsent` | src/pangea.js:190-199 | deleting an absent key leaves the registry unchanged |
| `Registry.LookupEntry` | src/pangea.js:348-350 | the descriptor found under an entry's key is that entry's |
| `Registry.RemoveLookup` | src/pangea.js:190-199 | after `deregister(k)`, `k` is gone, every other key is unchanged, and an absent `k` changes nothing |
| `Registry.ReAddMovesToEnd` | src/pangea.js:177 | delete then re-add puts the key last in iteration order |
| `Registry.FirstMatch` | src/pangea.js:347-348 | the first entry in iteration order whose pattern accepts the path; none before it does; no result exactly when none does |
| `Pangea.MakeConfig` | src/pangea.js:96-115 | absent options fail; otherwise `shouldScroll` is always true, timing defaults to 'before', a missing or zero duration becomes 200, `animateLinksToSelf` only when true, and given hooks are kept |
| `Pangea.DefaultScrollOffsetIsTop` | src/pangea.js:111 | without the hook, the scroll offset is 0 |
| `Pangea.Resolve` | src/pangea.js:166-168 | each register option when truthy, else the engine default; scrolling stays on and a nonzero default duration stays nonzero |
| `Pangea.RegisteredScrollSettings` | src/pangea.js:101-103 | for all options, a registered animation scrolls, with a nonzero duration that is 200 when no duration was given |
| `Pangea.Descriptor.constructor` | src/pangea.js:160-169 | the new descriptor's fields; `anchor` and `path` start null |
| `Pangea.GetTargetAnchor` | src/pangea.js:35-43 | the `while` walk returns the first node with an `href` among those that have a parent, or nothing |
| `Pangea.ClickTarget` | src/pangea.js:339-340 | the first node of the chain, target first and the root excluded, that has an `href`, with its origin-stripped path; none exactly when no node with a parent has an `href` |
| `Pangea.Engine.constructor` | src/pangea.js:96-130 | the configuration from `MakeConfig`, an empty registry and slot, and an error logged when the page has no links |
| `Pangea.Engine.Register` | src/pangea.js:157-180 | the registry becomes `Put(old, k, d)` for a fresh `d` with the padded class and resolved scroll settings; a missing element is logged and still stored; nothing else changes |
| `Pangea.Engine.Deregister` | src/pangea.js:190-199 | the registry becomes `Remove(old, k)`; an unknown key only adds a log entry; nothing else changes |
| `Pangea.Engine.FindMatch` | src/pangea.js:347-356 | the `for ... in` scan returns `FirstMatch` of the registry |
| `Pangea.Engine.SelfLinksAlwaysAdmitted` | src/pangea.js:344-346 | the self-link test never rejects, so a link to the current page passes the guard whenever the slot is empty and `shouldAnimate` agrees |
| `Pangea.Engine.Animate` | src/pangea.js:311-328 | the hook runs, then the listener is bound and the slot set, before any class change; the class is then added after the scroll, on a 0 ms timer beside a scroll, or at once; a missing element throws with the slot unchanged |
| `Pangea.Engine.OnClick` | src/pangea.js:338-358 | no anchor throws with nothing changed; a click the guard rejects (slot set, hook false) or with no match changes nothing; otherwise the first match gets `anchor`/`path`, `preventDefault` is called once, other descriptors are untouched, and `_animate` runs |
| `Pangea.Engine.Begin` | src/pangea.js:349-353 | the matched branch: `preventDefault` is counted once, the descriptor gets the anchor and path, and the state is what `_animate` leaves |
| `Pangea.Engine.Perform` | src/pangea.js:270-287 | adding the class; following the link (cleanup scheduled at 100 ms, then one reload or assignment); the cleanup (padded token removed, listener unbound, slot cleared) |
| `Pangea.Engine.OnTransitionEnd` | src/pangea.js:263-294 | no listener or an empty slot changes nothing; with timing 'after', a scroll is scheduled whose callback follows the link; otherwise the link is followed at once |
| `Pangea.Engine.Step` | src/pangea.js:228-255 | running a timer performs its action; a scroll sets `scrollY` to its offset, then runs its callback once; a negative duration never completes |
| `PageAnimation.MakeConfig` | src/pageanimation.js:85-103 | absent options fail; otherwise `shouldScroll` is always true, timing defaults to 'before', `animateLinksToSelf` only when true, and given hooks are kept |
| `PageAnimation.DefaultScrollOffsetIsTop` | src/pageanimation.js:99 | without the hook, the scroll offset is 0 |
| `PageAnimation.Resolve` | src/pageanimation.js:152-153 | each register option when truthy, else the engine default |
| `PageAnimation.Descriptor.constructor` | src/pageanimation.js:146-154 | the new descriptor's fields, with the class unpadded |
| `PageAnimation.EventAnchor` | src/pageanimation.js:35-46 | the target itself if it has an `href`, else the first `e.path` entry that has one, else nothing |
| `PageAnimation.GetTargetAnchor` | src/pageanimation.js:40-44 | the `for` loop over `e.path` returns `EventAnchor` |
| `PageAnimation.Engine.constructor` | src/pageanimation.js:85-118 | the configuration, an empty registry and slot, `targetUrl` unset, and an error logged when the page has no links |
| `PageAnimation.Engine.Register` | src/pageanimation.js:143-165 | the registry becomes `Put(old, k, d)` for a fresh `d`; a missing element is logged; nothing else changes |
| `PageAnimation.Engine.Deregister` | src/pageanimation.js:175-184 | the registry becomes `Remove(old, k)`; an unknown key only logs |
| `PageAnimation.Engine.FindMatch` | src/pageanimation.js:319-328 | the scan returns `FirstMatch` of the registry |
| `PageAnimation.Engine.Animate` | src/pageanimation.js:282-300 | as in Pangea, with every scroll lasting 200 ms; starting the animation sets `targetUrl` to the matched path and makes `className` exactly the animation's class |
| `PageAnimation.Engine.OnClick` | src/pageanimation.js:310-330 | as in Pangea, with `shouldAnimate()` called without arguments and the anchor from `EventAnchor` |
| `PageAnimation.Engine.Begin` | src/pageanimation.js:321-325 | as in Pangea |
| `PageAnimation.Engine.Perform` | src/pageanimation.js:252-258 | starting the animation (sets `targetUrl`, overwrites `className`); following the link (reload when `pathname` equals `targetUrl`, else assignment of `targetUrl`) |
| `PageAnimation.Engine.OnTransitionEnd` | src/pageanimation.js:244-265 | no listener or an empty slot changes nothing; otherwise the slot is cleared first, then a 200 ms scroll with timing 'after' or the navigation at once |
| `PageAnimation.Engine.Step` | src/pageanimation.js:213-237 | a timer performs its action; a scroll sets `scrollY` to its offset and then runs its callback; every pending scroll lasts 200 ms (kept by `Valid`) |

## Left out

- `_whichTransitionEndEvent`: vendor-prefix detection on a fake element. The event name is a constant, and the environment delivers it by calling `OnTransitionEnd(el)` with the id of the element it fired on.
- `enable` / `disable`: loops that attach and detach DOM listeners. The model calls `OnClick` as the bound listener would; whether listeners are attached is not tracked.
- `Pangea.Engine.Step`: the scroll loop is collapsed into one step. This covers `scrollTo`'s 15 ms ticks, `_easeInOutQuad`, `Date.now` and `requestAnimationFrame`. Intermediate positions, clamping to the scrollable range, and the timing of completion are not modelled. Only completion (`scrollY := offset`, then the callback) is modelled, and non-completion for a negative duration.
- `PageAnimation.Engine.Step`: the cosine scroll with its 5 px threshold is collapsed into one step that always completes. An offset the page cannot reach would keep the source scrolling forever.
- Timers: pending callbacks run in any order the environment chooses. The 0, 15 and 100 ms delays are recorded but do not constrain the order.
- `RegExp` construction and `.test`: these are the `regexTest` parameter of the engine. An invalid pattern, which makes `new RegExp` throw inside `register`, is not modelled.
- Object key order: JavaScript lists integer-like keys first, in ascending order. The model assumes patterns are not integer-like. Keys that collide with `Object.prototype` names, such as `__proto__` and `toString`, are not modelled either.
- `null` and `undefined` are both `None`. So `window.location = null` and `= undefined`, which go to different URLs, are the same `Assign(None)`.
- User hooks are pure functions (`computeScrollOffset`, `shouldAnimate`). A call of `beforeAnimationStart` is only logged. Side effects of user code on the engine are not modelled. `onTransitionEnd` is stored but never called by either engine, so it is not modelled.
- Navigation, reload and `console.error` are entries in the host's logs, not effects. A navigation does not unload the page, so later callbacks keep running, as they would on a suspended page.
- The older engine's `e.path` is given as a sequence. In browsers without it, the loop would throw.
- Uncaught exceptions are the `Threw` outcome. The state changes made before the throw are kept, as in the source.
- The UMD export at the end of both files is not modelled.
- JavaScript numbers (scroll offsets, durations, delays) are modelled as `int`. Fractional values and `NaN` are not modelled; `NaN` is falsy, so `NaN || 200` is 200 in the source.
