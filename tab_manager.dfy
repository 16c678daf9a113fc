/** The main window's view tabs, as the tab manager keeps them: a fixed
    display order for the known tab titles, lazily created tabs that are
    inserted at the position that order dictates, and one extra "Clean"
    tab per processing algorithm. */
module TabManagement {
  import opened PyCore
  import opened PyStr

  /** The display order of the known tab titles. */
  const TabOrder: seq<string> := ["Info", "Raw", "Rwb", "Clean", "Iterations", "Convergence", "Matrix"]

  /** `TAB_ORDER.index(title)`, or None for a title not in the list. */
  function Rank(title: string): (r: Option<nat>)
    ensures r.Some? <==> title in TabOrder
    ensures r.Some? ==> r.value < |TabOrder| && TabOrder[r.value] == title
  {
    if title == "Info" then Some(0)
    else if title == "Raw" then Some(1)
    else if title == "Rwb" then Some(2)
    else if title == "Clean" then Some(3)
    else if title == "Iterations" then Some(4)
    else if title == "Convergence" then Some(5)
    else if title == "Matrix" then Some(6)
    else None
  }

  /** The six lazily created tabs whose widgets the main window holds in fields. */
  datatype Kind = InfoTab | RwbTab | CleanTab | IterationsTab | ConvergenceTab | MatrixTab

  function Title(k: Kind): string {
    match k
    case InfoTab => "Info"
    case RwbTab => "Rwb"
    case CleanTab => "Clean"
    case IterationsTab => "Iterations"
    case ConvergenceTab => "Convergence"
    case MatrixTab => "Matrix"
  }

  /** The identity of a tab's page: one of the six managed widgets, a
      per-algorithm Clean plot, or a page made elsewhere (the Raw plot). */
  datatype Widget = Managed(kind: Kind) | AlgorithmClean(algorithm: string) | External(id: nat)

  datatype Tab = Tab(title: string, widget: Widget)

  /** The title of a per-algorithm Clean tab. */
  function AlgorithmTitle(algorithmName: string): string {
    "Clean (" + algorithmName + ")"
  }

  function Widgets(tabs: seq<Tab>): (ws: seq<Widget>)
    ensures |ws| == |tabs| && forall i | 0 <= i < |tabs| :: ws[i] == tabs[i].widget
  {
    seq(|tabs|, i requires 0 <= i < |tabs| => tabs[i].widget)
  }

  /** `tabs[i]` has a known title ranked strictly before `target`. */
  predicate Below(t: Tab, target: nat) {
    Rank(t.title).Some? && Rank(t.title).value < target
  }

  /** Every pair of known titles appears in the display order. */
  predicate Ordered(tabs: seq<Tab>) {
    forall i, j | 0 <= i < j < |tabs| && Rank(tabs[i].title).Some? && Rank(tabs[j].title).Some? ::
      Rank(tabs[i].title).value <= Rank(tabs[j].title).value
  }

  /** One past the last of the first `n` tabs ranked before `target`, or 0. */
  function LastBelow(tabs: seq<Tab>, target: nat, n: nat): (p: nat)
    requires n <= |tabs|
    ensures p <= n
    ensures p == 0 || Below(tabs[p - 1], target)
    ensures forall k | p <= k < n :: !Below(tabs[k], target)
  {
    if n == 0 then 0
    else if Below(tabs[n - 1], target) then n
    else LastBelow(tabs, target, n - 1)
  }

  /** Where a tab titled `name` goes: at the end for an unknown title,
      otherwise right after the last tab whose title ranks lower. */
  function InsertPos(tabs: seq<Tab>, name: string): nat {
    match Rank(name)
    case None => |tabs|
    case Some(target) => LastBelow(tabs, target, |tabs|)
  }

  /** `QTabWidget.insertTab(p, ...)`. */
  function Inserted(tabs: seq<Tab>, p: nat, t: Tab): seq<Tab>
    requires p <= |tabs|
  {
    tabs[..p] + [t] + tabs[p..]
  }

  /** The index of the last of the first `n` tabs whose title contains "Clean". */
  function LastClean(tabs: seq<Tab>, n: nat): (r: Option<nat>)
    requires n <= |tabs|
    ensures r.Some? ==> r.value < n && Contains(tabs[r.value].title, "Clean")
    ensures r.Some? ==> forall k | r.value < k < n :: !Contains(tabs[k].title, "Clean")
    ensures r.None? ==> forall k | 0 <= k < n :: !Contains(tabs[k].title, "Clean")
  {
    if n == 0 then None
    else if Contains(tabs[n - 1].title, "Clean") then Some(n - 1)
    else LastClean(tabs, n - 1)
  }

  /** Where a per-algorithm Clean tab goes: after the last tab whose title
      contains "Clean", or where a plain "Clean" tab would go if there is none. */
  function CleanSlot(tabs: seq<Tab>): nat {
    match LastClean(tabs, |tabs|)
    case Some(k) => k + 1
    case None => InsertPos(tabs, "Clean")
  }

  /** `QTabWidget.indexOf(widget)`: the first tab showing `w`, or -1. */
  function IndexOf(tabs: seq<Tab>, w: Widget): (i: int)
    ensures -1 <= i < |tabs|
    ensures i == -1 <==> w !in Widgets(tabs)
    ensures i >= 0 ==> tabs[i].widget == w && forall k | 0 <= k < i :: tabs[k].widget != w
  {
    if |tabs| == 0 then -1
    else if tabs[0].widget == w then 0
    else
      var i := IndexOf(tabs[1..], w);
      WidgetsCons(tabs);
      if i == -1 then -1 else i + 1
  }

  /** The pages of a non-empty tab list: the first one, then the rest. */
  lemma WidgetsCons(tabs: seq<Tab>)
    requires |tabs| > 0
    ensures Widgets(tabs) == [tabs[0].widget] + Widgets(tabs[1..])
  {
  }

  /** The insert position is a valid index; an unknown title goes last;
      a known one goes right after the last lower-ranked tab, and no
      lower-ranked tab follows it. */
  lemma InsertPosSpec(tabs: seq<Tab>, name: string)
    ensures InsertPos(tabs, name) <= |tabs|
    ensures name !in TabOrder ==> InsertPos(tabs, name) == |tabs|
    ensures name in TabOrder ==>
      var p := InsertPos(tabs, name);
      (p == 0 || Below(tabs[p - 1], Rank(name).value)) &&
      forall k | p <= k < |tabs| :: !Below(tabs[k], Rank(name).value)
  {
  }

  /** What lies at each index after an insertion. */
  lemma InsertedAt(tabs: seq<Tab>, p: nat, t: Tab, i: nat)
    requires p <= |tabs| && i <= |tabs|
    ensures Inserted(tabs, p, t)[i] == if i < p then tabs[i] else if i == p then t else tabs[i - 1]
  {
  }

  /** What lies at each index after a removal. */
  lemma RemovedAt(tabs: seq<Tab>, r: nat, i: nat)
    requires r < |tabs| && i + 1 < |tabs|
    ensures (tabs[..r] + tabs[r + 1..])[i] == if i < r then tabs[i] else tabs[i + 1]
  {
  }

  /** Inserting a tab whose title is not in the order list anywhere keeps
      the known titles in order. */
  lemma InsertUnrankedKeepsOrder(tabs: seq<Tab>, p: nat, t: Tab)
    requires p <= |tabs| && Rank(t.title).None?
    requires Ordered(tabs)
    ensures Ordered(Inserted(tabs, p, t))
  {
    var s := Inserted(tabs, p, t);
    forall i, j | 0 <= i < j < |s| && Rank(s[i].title).Some? && Rank(s[j].title).Some?
      ensures Rank(s[i].title).value <= Rank(s[j].title).value
    {
      InsertedAt(tabs, p, t, i);
      InsertedAt(tabs, p, t, j);
    }
  }

  /** If the existing tabs follow the display order, inserting a tab at the
      position computed for its title keeps them in order. */
  lemma InsertKeepsOrder(tabs: seq<Tab>, t: Tab)
    requires Ordered(tabs)
    ensures Ordered(Inserted(tabs, InsertPos(tabs, t.title), t))
  {
    var p := InsertPos(tabs, t.title);
    InsertPosSpec(tabs, t.title);
    if Rank(t.title).None? {
      InsertUnrankedKeepsOrder(tabs, p, t);
    } else {
      var target := Rank(t.title).value;
      BeforeBelow(tabs, p, target);
      InsertBetweenKeepsOrder(tabs, p, t, target);
    }
  }

  /** In ordered tabs, every known title before a tab ranked below `target`
      ranks below `target` too. */
  lemma BeforeBelow(tabs: seq<Tab>, p: nat, target: nat)
    requires Ordered(tabs) && p <= |tabs| && (p == 0 || Below(tabs[p - 1], target))
    ensures forall k | 0 <= k < p && Rank(tabs[k].title).Some? :: Rank(tabs[k].title).value < target
  {
    forall k | 0 <= k < p && Rank(tabs[k].title).Some?
      ensures Rank(tabs[k].title).value < target
    {
      if k < p - 1 {
        assert Rank(tabs[k].title).value <= Rank(tabs[p - 1].title).value;
      }
    }
  }

  /** Inserting a tab of rank `target` where every known title before it
      ranks lower and no known title after it does keeps the order. */
  lemma InsertBetweenKeepsOrder(tabs: seq<Tab>, p: nat, t: Tab, target: nat)
    requires Ordered(tabs) && p <= |tabs| && Rank(t.title) == Some(target)
    requires forall k | 0 <= k < p && Rank(tabs[k].title).Some? :: Rank(tabs[k].title).value < target
    requires forall k | p <= k < |tabs| :: !Below(tabs[k], target)
    ensures Ordered(Inserted(tabs, p, t))
  {
    var s := Inserted(tabs, p, t);
    forall i, j | 0 <= i < j < |s| && Rank(s[i].title).Some? && Rank(s[j].title).Some?
      ensures Rank(s[i].title).value <= Rank(s[j].title).value
    {
      InsertedAt(tabs, p, t, i);
      InsertedAt(tabs, p, t, j);
      if i == p {
        assert !Below(tabs[j - 1], target);
      } else if i < p < j {
        assert !Below(tabs[j - 1], target);
      }
    }
  }

  /** Removing a tab keeps the others in order. */
  lemma RemoveKeepsOrder(tabs: seq<Tab>, i: nat)
    requires i < |tabs| && Ordered(tabs)
    ensures Ordered(tabs[..i] + tabs[i + 1..])
  {
    var s := tabs[..i] + tabs[i + 1..];
    forall a, b | 0 <= a < b < |s| && Rank(s[a].title).Some? && Rank(s[b].title).Some?
      ensures Rank(s[a].title).value <= Rank(s[b].title).value
    {
      var a' := if a < i then a else a + 1;
      var b' := if b < i then b else b + 1;
      assert s[a] == tabs[a'] && s[b] == tabs[b'];
    }
  }

  /** A per-algorithm Clean tab title is never one of the known titles, so
      it takes no part in the display order. */
  lemma AlgorithmTitleUnranked(algorithmName: string)
    ensures Rank(AlgorithmTitle(algorithmName)).None?
  {
    var t := AlgorithmTitle(algorithmName);
    assert t[1] == 'l' && |t| >= 8;
    assert "Clean"[1] == 'l' && |"Clean"| == 5;
    assert "Info"[1] != 'l' && "Raw"[1] != 'l' && "Rwb"[1] != 'l';
    assert "Iterations"[1] != 'l' && "Convergence"[1] != 'l' && "Matrix"[1] != 'l';
  }

  /** Each managed widget field is set exactly when its page is in the tab
      widget, under its own title and only once; each per-algorithm page is
      in the tab widget exactly when its algorithm is in the manager's map. */
  ghost predicate Consistent(tabs: seq<Tab>, shown: set<Kind>, algorithms: set<string>) {
    (forall k: Kind :: k in shown <==> Managed(k) in Widgets(tabs)) &&
    (forall a :: a in algorithms <==> AlgorithmClean(a) in Widgets(tabs)) &&
    TitlesMatch(tabs) && ManagedOnce(tabs)
  }

  /** Every managed page sits under its own title. */
  predicate TitlesMatch(tabs: seq<Tab>) {
    forall i | 0 <= i < |tabs| && tabs[i].widget.Managed? :: tabs[i].title == Title(tabs[i].widget.kind)
  }

  /** No managed page is in the tab widget twice. */
  predicate ManagedOnce(tabs: seq<Tab>) {
    forall i, j | 0 <= i < j < |tabs| && tabs[i].widget.Managed? :: tabs[i].widget != tabs[j].widget
  }

  lemma InsertedWidgetIn(tabs: seq<Tab>, p: nat, t: Tab, w: Widget)
    requires p <= |tabs|
    ensures w in Widgets(Inserted(tabs, p, t)) <==> w in Widgets(tabs) || w == t.widget
  {
    var s := Inserted(tabs, p, t);
    if w in Widgets(s) {
      var i :| 0 <= i < |s| && Widgets(s)[i] == w;
      if i < p { assert s[i] == tabs[i]; }
      else if i > p { assert s[i] == tabs[i - 1]; }
    }
    if w in Widgets(tabs) {
      var i :| 0 <= i < |tabs| && Widgets(tabs)[i] == w;
      if i < p { assert s[i] == tabs[i]; } else { assert s[i + 1] == tabs[i]; }
    }
    if w == t.widget {
      assert s[p] == t;
    }
  }

  lemma RemovedWidgetIn(tabs: seq<Tab>, r: nat, w: Widget)
    requires r < |tabs|
    ensures w in Widgets(tabs[..r] + tabs[r + 1..]) ==> w in Widgets(tabs)
    ensures w in Widgets(tabs) && w != tabs[r].widget ==> w in Widgets(tabs[..r] + tabs[r + 1..])
  {
    var s := tabs[..r] + tabs[r + 1..];
    if w in Widgets(s) {
      var i :| 0 <= i < |s| && Widgets(s)[i] == w;
      if i < r { assert s[i] == tabs[i]; } else { assert s[i] == tabs[i + 1]; }
    }
    if w in Widgets(tabs) && w != tabs[r].widget {
      var i :| 0 <= i < |tabs| && Widgets(tabs)[i] == w;
      if i < r { assert s[i] == tabs[i]; } else { assert i != r; assert s[i - 1] == tabs[i]; }
    }
  }

  /** Inserting a page that sits under its own title keeps every managed
      page under its own title. */
  lemma InsertTitlesMatch(tabs: seq<Tab>, p: nat, t: Tab)
    requires TitlesMatch(tabs) && p <= |tabs|
    requires t.widget.Managed? ==> t.title == Title(t.widget.kind)
    ensures TitlesMatch(Inserted(tabs, p, t))
  {
    var s := Inserted(tabs, p, t);
    forall i | 0 <= i < |s| && s[i].widget.Managed? ensures s[i].title == Title(s[i].widget.kind) {
      InsertedAt(tabs, p, t, i);
    }
  }

  /** Inserting a page not yet in the tab widget keeps the managed pages distinct. */
  lemma InsertManagedOnce(tabs: seq<Tab>, p: nat, t: Tab)
    requires ManagedOnce(tabs) && p <= |tabs|
    requires t.widget !in Widgets(tabs)
    ensures ManagedOnce(Inserted(tabs, p, t))
  {
    var s := Inserted(tabs, p, t);
    forall i, j | 0 <= i < j < |s| && s[i].widget.Managed? ensures s[i].widget != s[j].widget {
      InsertedAt(tabs, p, t, i);
      InsertedAt(tabs, p, t, j);
      if i == p {
        assert Widgets(tabs)[j - 1] == tabs[j - 1].widget;
      } else if j == p {
        assert Widgets(tabs)[i] == tabs[i].widget;
      }
    }
  }

  /** Inserting a new page keeps the widget bookkeeping consistent when it
      is recorded in the matching field or map. */
  lemma InsertConsistent(tabs: seq<Tab>, shown: set<Kind>, algorithms: set<string>, p: nat, t: Tab,
                         shown': set<Kind>, algorithms': set<string>)
    requires Consistent(tabs, shown, algorithms) && p <= |tabs|
    requires t.widget !in Widgets(tabs)
    requires t.widget.Managed? ==> t.title == Title(t.widget.kind)
    requires forall k: Kind :: k in shown' <==> k in shown || t.widget == Managed(k)
    requires forall a :: a in algorithms' <==> a in algorithms || t.widget == AlgorithmClean(a)
    ensures Consistent(Inserted(tabs, p, t), shown', algorithms')
  {
    var s := Inserted(tabs, p, t);
    InsertTitlesMatch(tabs, p, t);
    InsertManagedOnce(tabs, p, t);
    forall k: Kind ensures k in shown' <==> Managed(k) in Widgets(s) {
      InsertedWidgetIn(tabs, p, t, Managed(k));
    }
    forall a ensures a in algorithms' <==> AlgorithmClean(a) in Widgets(s) {
      InsertedWidgetIn(tabs, p, t, AlgorithmClean(a));
    }
  }

  /** Removing a tab keeps every other managed page under its own title. */
  lemma RemoveTitlesMatch(tabs: seq<Tab>, r: nat)
    requires TitlesMatch(tabs) && r < |tabs|
    ensures TitlesMatch(tabs[..r] + tabs[r + 1..])
  {
    var s := tabs[..r] + tabs[r + 1..];
    forall i | 0 <= i < |s| && s[i].widget.Managed? ensures s[i].title == Title(s[i].widget.kind) {
      RemovedAt(tabs, r, i);
    }
  }

  /** Removing a tab keeps the remaining managed pages distinct. */
  lemma RemoveManagedOnce(tabs: seq<Tab>, r: nat)
    requires ManagedOnce(tabs) && r < |tabs|
    ensures ManagedOnce(tabs[..r] + tabs[r + 1..])
  {
    var s := tabs[..r] + tabs[r + 1..];
    forall i, j | 0 <= i < j < |s| && s[i].widget.Managed? ensures s[i].widget != s[j].widget {
      RemovedAt(tabs, r, i);
      RemovedAt(tabs, r, j);
    }
  }

  /** A managed page that was in the tab widget once is gone after its removal. */
  lemma RemovedPageGone(tabs: seq<Tab>, r: nat)
    requires ManagedOnce(tabs) && r < |tabs| && tabs[r].widget.Managed?
    ensures tabs[r].widget !in Widgets(tabs[..r] + tabs[r + 1..])
  {
    var s := tabs[..r] + tabs[r + 1..];
    forall i | 0 <= i < |s| ensures Widgets(s)[i] != tabs[r].widget {
      RemovedAt(tabs, r, i);
    }
  }

  /** Removing the only page of a managed widget and clearing its field keeps
      the bookkeeping consistent. */
  lemma RemoveConsistent(tabs: seq<Tab>, shown: set<Kind>, algorithms: set<string>, r: nat)
    requires Consistent(tabs, shown, algorithms) && r < |tabs| && tabs[r].widget.Managed?
    ensures Consistent(tabs[..r] + tabs[r + 1..], shown - {tabs[r].widget.kind}, algorithms)
    ensures tabs[r].widget !in Widgets(tabs[..r] + tabs[r + 1..])
  {
    var s := tabs[..r] + tabs[r + 1..];
    var w := tabs[r].widget;
    RemovedPageGone(tabs, r);
    RemoveTitlesMatch(tabs, r);
    RemoveManagedOnce(tabs, r);
    forall k: Kind ensures k in shown - {w.kind} <==> Managed(k) in Widgets(s) {
      RemovedWidgetIn(tabs, r, Managed(k));
    }
    forall a ensures a in algorithms <==> AlgorithmClean(a) in Widgets(s) {
      RemovedWidgetIn(tabs, r, AlgorithmClean(a));
    }
  }

  /** The main window's tab widget and widget fields, together with the
      manager's per-algorithm map. `shown` holds the kinds whose widget
      field is not None. */
  class TabManager {
    var tabs: seq<Tab>
    var shown: set<Kind>
    var algorithms: set<string>

    ghost predicate Valid()
      reads this
    {
      Consistent(tabs, shown, algorithms)
    }

    /** The window starts with only the Raw tab, every managed widget field
        None, and an empty per-algorithm map. */
    constructor ()
      ensures Valid() && Ordered(tabs)
      ensures tabs == [Tab("Raw", External(0))] && shown == {} && algorithms == {}
    {
      tabs := [Tab("Raw", External(0))];
      shown := {};
      algorithms := {};
    }

    /** The loop of `_get_tab_insert_position`. */
    method InsertPosition(name: string) returns (p: nat)
      ensures p == InsertPos(tabs, name)
    {
      var target := Rank(name);
      if target.None? {
        return |tabs|;
      }
      var t := tabs;
      p := 0;
      for i := 0 to |t|
        invariant p == LastBelow(t, target.value, i)
      {
        var current := Rank(t[i].title);
        if current.Some? && current.value < target.value {
          p := i + 1;
        }
      }
    }

    /** The position loop of `ensure_clean_tab_for_algorithm`. */
    method CleanPosition() returns (p: nat)
      ensures p == CleanSlot(tabs) && p <= |tabs|
    {
      p := InsertPosition("Clean");
      InsertPosSpec(tabs, "Clean");
      var t := tabs;
      for i := 0 to |t|
        invariant p == match LastClean(t, i) case Some(k) => k + 1 case None => InsertPos(t, "Clean")
        invariant p <= |t|
      {
        if Contains(t[i].title, "Clean") {
          p := i + 1;
        }
      }
    }

    /** `ensure_<kind>_tab`: creates the page and inserts it only when its
        widget field is None, so a second call changes nothing. */
    method Ensure(k: Kind)
      requires Valid()
      modifies this
      ensures Valid() && k in shown && algorithms == old(algorithms)
      ensures old(k in shown) ==> tabs == old(tabs) && shown == old(shown)
      ensures old(k !in shown) ==>
        tabs == Inserted(old(tabs), InsertPos(old(tabs), Title(k)), Tab(Title(k), Managed(k))) &&
        shown == old(shown) + {k}
      ensures old(Ordered(tabs)) ==> Ordered(tabs)
    {
      if k !in shown {
        var p := InsertPosition(Title(k));
        var tab := Tab(Title(k), Managed(k));
        InsertPosSpec(tabs, Title(k));
        if Ordered(tabs) {
          InsertKeepsOrder(tabs, tab);
        }
        InsertConsistent(tabs, shown, algorithms, p, tab, shown + {k}, algorithms);
        tabs := Inserted(tabs, p, tab);
        shown := shown + {k};
      }
    }

    /** `remove_<kind>_tab`: when the widget field is set, removes its page
        if the tab widget shows it, then sets the field to None. */
    method Remove(k: Kind)
      requires Valid()
      modifies this
      ensures Valid() && k !in shown && shown == old(shown) - {k} && algorithms == old(algorithms)
      ensures Managed(k) !in Widgets(tabs)
      ensures old(k !in shown) ==> tabs == old(tabs)
      ensures old(k in shown) ==>
        var i := IndexOf(old(tabs), Managed(k));
        i >= 0 && tabs == old(tabs)[..i] + old(tabs)[i + 1..]
      ensures old(Ordered(tabs)) ==> Ordered(tabs)
    {
      if k in shown {
        var idx := IndexOf(tabs, Managed(k));
        if idx != -1 {
          if Ordered(tabs) {
            RemoveKeepsOrder(tabs, idx);
          }
          RemoveConsistent(tabs, shown, algorithms, idx);
          tabs := tabs[..idx] + tabs[idx + 1..];
        }
        shown := shown - {k};
      }
    }

    /** `ensure_clean_tab_for_algorithm`: on the first call for an algorithm,
        inserts a "Clean (<name>)" page after the last tab whose title
        contains "Clean"; later calls for it change nothing. */
    method EnsureCleanForAlgorithm(algorithm: string, algorithmName: string)
      requires Valid()
      modifies this
      ensures Valid() && algorithm in algorithms && shown == old(shown)
      ensures old(algorithm in algorithms) ==> tabs == old(tabs) && algorithms == old(algorithms)
      ensures old(algorithm !in algorithms) ==>
        tabs == Inserted(old(tabs), CleanSlot(old(tabs)), Tab(AlgorithmTitle(algorithmName), AlgorithmClean(algorithm))) &&
        algorithms == old(algorithms) + {algorithm}
      ensures old(Ordered(tabs)) ==> Ordered(tabs)
    {
      if algorithm !in algorithms {
        var p := CleanPosition();
        var tab := Tab(AlgorithmTitle(algorithmName), AlgorithmClean(algorithm));
        AlgorithmTitleUnranked(algorithmName);
        if Ordered(tabs) {
          InsertUnrankedKeepsOrder(tabs, p, tab);
        }
        InsertConsistent(tabs, shown, algorithms, p, tab, shown, algorithms + {algorithm});
        tabs := Inserted(tabs, p, tab);
        algorithms := algorithms + {algorithm};
      }
    }

    /** `get_clean_widget_for_algorithm`: the algorithm's page, which is in
        the tab widget, or None when the algorithm has none. */
    method CleanWidget(algorithm: string) returns (w: Option<Widget>)
      requires Valid()
      ensures w.Some? <==> algorithm in algorithms
      ensures w.Some? ==> w.value == AlgorithmClean(algorithm) && w.value in Widgets(tabs)
    {
      if algorithm in algorithms {
        w := Some(AlgorithmClean(algorithm));
      } else {
        w := None;
      }
    }
  }

}
