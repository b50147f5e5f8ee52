/** Client runs of the engines, proved from their contracts alone. */
module Scenarios {
  import opened Common
  import opened Registry
  import Pangea
  import PageAnimation

  /** The "before" timing: a click on a link to `/about` scrolls to the top
      first, then adds the class, and on transition end navigates to `/about`;
      a second click while the transition runs is ignored; the cleanup then
      restores the class string and frees the slot. This method covers the
      click; the run goes on with `PangeaWhileRunning`. */
  method PangeaBeforeTiming()
  {
    var origin := "https://a.b";
    var page := Host(origin, "/home", 500, "page", {"last"}, 3, {}, [], 0, [], []);
    var test := (pattern: string, p: string) => pattern == "^/about$" && p == "/about";
    var e := new Pangea.Engine(Pangea.Options(None, None, None, None, None, None), page, test);
    var d := e.Register("^/about$", "last", "fade", None);
    assert e.animations == [("^/about$", d)];
    assert d.shouldScroll && d.scrollTiming == "before" && d.scrollDuration == 200;

    var href := origin + "/about";
    AnchorPathOfInSiteLink(origin, "/about");
    var chain := [Node(None), Node(Some(href)), Node(None)];
    assert Pangea.ClickTarget(chain, origin) == Some((chain[1], "/about"));
    var o := e.OnClick(chain);
    assert e.currentAnimation == d && d.path == Some("/about");
    assert e.host.prevented == 1 && e.host.className == "page";
    assert e.pending == [Pangea.Scroll(0, 200, Some(Pangea.StartAnimation(d)))];
    assert e.host.bound == {"last"} && e.host.navigations == [];
    PangeaWhileRunning(e, d, chain);
  }

  /** The middle of the same run: a second click while the transition runs
      changes nothing, and the class is added only once the scroll is done.
      The run goes on with `PangeaFinish`. */
  method PangeaWhileRunning(e: Pangea.Engine, d: Pangea.Descriptor, chain: seq<Node>)
    requires chain != [] && e.Valid() && e.currentAnimation == d
    requires e.pending == [Pangea.Scroll(0, 200, Some(Pangea.StartAnimation(d)))]
    requires d.bodyClass == " fade " && e.host.className == "page" && e.host.prevented == 1
    requires d.finalElement == Some("last") && d.scrollTiming == "before" && d.path == Some("/about")
    requires e.host.pathname == "/home" && e.host.bound == {"last"} && e.host.navigations == []
    modifies e, e.Descriptors()
  {
    var o := e.OnClick(chain);
    assert e.host.prevented == 1 && e.currentAnimation == d;

    // The scroll completes before the class is added.
    o := e.Step(0);
    assert e.host.scrollY == 0 && e.host.className == "page" + " fade ";
    assert e.pending == [];
    PangeaFinish(e, d);
  }

  /** The end of the same run: the transition end navigates to `/about`
      (an assignment, as the path differs from the current one) and the
      cleanup then restores the class string and frees the slot. */
  method PangeaFinish(e: Pangea.Engine, d: Pangea.Descriptor)
    requires e.Valid() && e.currentAnimation == d && e.pending == []
    requires d.finalElement == Some("last") && d.scrollTiming == "before"
    requires d.bodyClass == " fade " && d.path == Some("/about")
    requires e.host.pathname == "/home" && e.host.className == "page" + " fade "
    requires e.host.bound == {"last"} && e.host.navigations == []
    modifies e
  {
    var o := e.OnTransitionEnd("last");
    assert e.host.navigations == [Assign(Some("/about"))];
    assert e.pending == [Pangea.Timer(100, Pangea.Cleanup(d))];

    var c, tok := "page", " fade ";
    forall j: nat | j < |c| ensures !OccursAt(c + tok, tok, j) {
      assert (c + tok)[j] == c[j] != ' ';
      if j + |tok| <= |c + tok| { assert (c + tok)[j..j + |tok|][0] == c[j]; }
    }
    RemoveAppendedToken(c, tok);
    o := e.Step(0);
    assert e.host.className == "page" && e.currentAnimation == null && e.host.bound == {};
  }

  /** The older engine on a link to the current page: the class string
      becomes exactly the animation's class, the transition end clears the
      slot at once and reloads (the target equals the current path), and a
      second transition end does nothing. */
  method PageAnimationSamePath()
  {
    var origin := "https://a.b";
    var page := Host(origin, "/home", 500, "page", {"last"}, 3, {}, [], 0, [], []);
    var test := (pattern: string, p: string) => p == "/home";
    var e := new PageAnimation.Engine(PageAnimation.Options(None, None, Some(true), None, None), page, test);
    var d := e.Register("^/home$", "last", "fade", None);
    assert e.animations == [("^/home$", d)];

    var href := origin + "/home";
    AnchorPathOfInSiteLink(origin, "/home");
    var target := Node(Some(href));
    var o := e.OnClick(target, []);
    assert e.currentAnimation == d && d.path == Some("/home");
    assert e.pending == [PageAnimation.Scroll(0, 200, Some(PageAnimation.StartAnimation(d)))];

    e.Step(0);
    assert e.host.className == "fade" && e.targetUrl == Some("/home");

    e.OnTransitionEnd("last");
    assert e.currentAnimation == null && e.host.navigations == [Reload];

    e.OnTransitionEnd("last");
    assert e.host.navigations == [Reload];
  }
}
