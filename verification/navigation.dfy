/**
 * The view navigation of the widget: a history stack of visited views whose
 * last entry is the view on screen.
 */
module Navigation {
  import opened TimerEngine

  datatype View = TimerView | SettingsView | HomeView

  datatype Nav = Nav(history: seq<View>, current: View)

  datatype NavOutcome = NavOutcome(nav: Nav, cue: Cue)

  /** The history is never empty and the view on screen is its last entry. */
  predicate NavInv(n: Nav) {
    |n.history| >= 1 && n.current == n.history[|n.history| - 1]
  }

  /** The widget opens on the timer view, the only entry of the history. */
  function InitialNav(): (n: Nav)
    ensures NavInv(n) && |n.history| == 1 && n.current == TimerView
  {
    Nav([TimerView], TimerView)
  }

  /** Going to view `v` pushes it on the history and shows it, with a click. */
  function Navigate(n: Nav, v: View, muted: bool): (r: NavOutcome)
    ensures |r.nav.history| == |n.history| + 1
    ensures r.nav.history[..|n.history|] == n.history
    ensures r.nav.history[|n.history|] == v
    ensures r.nav.current == v
    ensures NavInv(r.nav)
    ensures r.cue == Audible(muted, Click)
  {
    NavOutcome(Nav(n.history + [v], v), Audible(muted, Click))
  }

  /**
   * Going back pops the history and shows the entry below, with a click;
   * with a single entry left it does nothing at all.
   */
  function Back(n: Nav, muted: bool): (r: NavOutcome)
    ensures |n.history| <= 1 ==> r == NavOutcome(n, Silent)
    ensures |n.history| > 1 ==>
      && n.history == r.nav.history + [n.history[|n.history| - 1]]
      && NavInv(r.nav)
      && r.cue == Audible(muted, Click)
    ensures NavInv(n) ==> NavInv(r.nav)
  {
    if |n.history| > 1 then
      var newHistory := n.history[..|n.history| - 1];
      assert n.history == newHistory + [n.history[|n.history| - 1]];
      NavOutcome(Nav(newHistory, newHistory[|newHistory| - 1]), Audible(muted, Click))
    else
      NavOutcome(n, Silent)
  }

  /** Going back right after going somewhere returns to where navigation started. */
  lemma BackUndoesNavigate(n: Nav, v: View, muted: bool)
    requires NavInv(n)
    ensures Back(Navigate(n, v, muted).nav, muted).nav == n
  {
    assert (n.history + [v])[..|n.history|] == n.history;
  }
}
