/**
 * The filter editor (src/components/FilterBar.tsx): a draft `Filters`
 * value that the popover edits, the applied value the page passes in, the
 * badge row that shows the applied value, and the count on the button.
 *
 * Editing the draft never reaches the page; only applying, clearing and
 * removing a badge notify it, and the latter two also reset the draft.
 * A notification is modelled as the `Filters` value a method returns.
 */
module FilterBar {
  import opened Builtins
  import opened Api

  datatype Filters = Filters(diet: Diet, intolerances: seq<Intolerance>, maxReadyTime: Option<int>)

  /** `{ diet: '', intolerances: [], maxReadyTime: null }`. */
  const NoFilters: Filters := Filters(AnyDiet, [], None)

  /** `maxReadyTime` is truthy: set and not 0. */
  predicate TimeActive(t: Option<int>) {
    t.Some? && t.value != 0
  }

  // ---------------------------------------------------------------------
  // Badges and the count
  // ---------------------------------------------------------------------

  /** One removable badge of the applied filters. */
  datatype Badge = DietBadge(diet: Diet) | IntoleranceBadge(intolerance: Intolerance) | TimeBadge(minutes: int)

  function IntoleranceBadges(xs: seq<Intolerance>): (bs: seq<Badge>)
    ensures |bs| == |xs|
  {
    if xs == [] then [] else [IntoleranceBadge(xs[0])] + IntoleranceBadges(xs[1..])
  }

  function DietBadges(f: Filters): seq<Badge> {
    if f.diet != AnyDiet then [DietBadge(f.diet)] else []
  }

  function TimeBadges(f: Filters): seq<Badge> {
    if TimeActive(f.maxReadyTime) then [TimeBadge(f.maxReadyTime.value)] else []
  }

  /** The badges shown for the applied filters, left to right. */
  function Badges(f: Filters): seq<Badge> {
    DietBadges(f) + IntoleranceBadges(f.intolerances) + TimeBadges(f)
  }

  /** `activeFilterCount`: one for a diet, one per intolerance, one for a time limit. */
  function ActiveFilterCount(f: Filters): nat {
    (if f.diet != AnyDiet then 1 else 0)
    + |f.intolerances|
    + (if TimeActive(f.maxReadyTime) then 1 else 0)
  }

  /** The count on the button is the number of badges shown. */
  lemma CountIsBadgeCount(f: Filters)
    ensures ActiveFilterCount(f) == |Badges(f)|
  {
  }

  /** The count is zero exactly when no filter is in effect. */
  lemma CountZero(f: Filters)
    ensures ActiveFilterCount(f) == 0 <==>
              f.diet == AnyDiet && f.intolerances == [] && !TimeActive(f.maxReadyTime)
  {
  }

  // ---------------------------------------------------------------------
  // Intolerance toggling
  // ---------------------------------------------------------------------

  /**
   * `handleIntoleranceChange`: a value already in the list is filtered out
   * (every copy); any other value is appended.
   */
  function ToggleIntolerance(xs: seq<Intolerance>, v: Intolerance): seq<Intolerance> {
    if v in xs then Omit(xs, v) else xs + [v]
  }

  /** The toggled value changes membership; every other value keeps it. */
  lemma ToggleIntoleranceMembers(xs: seq<Intolerance>, v: Intolerance, w: Intolerance)
    ensures w in ToggleIntolerance(xs, v) <==> if w == v then v !in xs else w in xs
  {
    if v in xs && w != v && w in xs {
      var i :| 0 <= i < |xs| && xs[i] == w;
    }
  }

  /** As multisets: every copy removed, or exactly one copy added. */
  lemma ToggleIntoleranceMultiset(xs: seq<Intolerance>, v: Intolerance)
    ensures multiset(ToggleIntolerance(xs, v)) ==
              if v in xs then multiset(xs)[v := 0] else multiset(xs) + multiset{v}
  {
    if v in xs {
      OmitMultiset(xs, v);
    }
  }

  /** Toggling an absent value twice gives the list back. */
  lemma ToggleIntoleranceTwice(xs: seq<Intolerance>, v: Intolerance)
    requires v !in xs
    ensures ToggleIntolerance(ToggleIntolerance(xs, v), v) == xs
  {
    assert v in xs + [v];
    AppendThenOmit(xs, v);
  }

  /** Toggling never introduces a duplicate intolerance. */
  lemma ToggleIntoleranceKeepsNoDuplicates(xs: seq<Intolerance>, v: Intolerance)
    requires NoDuplicates(xs)
    ensures NoDuplicates(ToggleIntolerance(xs, v))
  {
    if v in xs {
      OmitKeepsNoDuplicates(xs, v);
    } else {
      var ys := xs + [v];
      forall i, j | 0 <= i < j < |ys|
        ensures ys[i] != ys[j]
      {
        if j == |xs| {
          assert ys[i] == xs[i];
        }
      }
    }
  }

  // ---------------------------------------------------------------------
  // Badge removal
  // ---------------------------------------------------------------------

  /**
   * The new applied value a badge's remove button sends: the diet badge
   * resets the diet to '', an intolerance badge filters that value out of
   * the applied list, the time badge resets the limit to null.
   */
  function RemoveBadge(f: Filters, b: Badge): Filters {
    match b
    case DietBadge(_) => f.(diet := AnyDiet)
    case IntoleranceBadge(i) => f.(intolerances := Omit(f.intolerances, i))
    case TimeBadge(_) => f.(maxReadyTime := None)
  }

  lemma {:induction false} IntoleranceBadgesOmit(xs: seq<Intolerance>, v: Intolerance)
    ensures IntoleranceBadges(Omit(xs, v)) == Omit(IntoleranceBadges(xs), IntoleranceBadge(v))
  {
    if xs != [] {
      IntoleranceBadgesOmit(xs[1..], v);
      var head: seq<Intolerance> := if xs[0] == v then [] else [xs[0]];
      IntoleranceBadgesAppend(head, Omit(xs[1..], v));
    }
  }

  lemma {:induction false} IntoleranceBadgesAppend(xs: seq<Intolerance>, ys: seq<Intolerance>)
    ensures IntoleranceBadges(xs + ys) == IntoleranceBadges(xs) + IntoleranceBadges(ys)
  {
    if xs == [] {
      assert xs + ys == ys;
    } else {
      assert (xs + ys)[1..] == xs[1..] + ys;
      IntoleranceBadgesAppend(xs[1..], ys);
    }
  }

  lemma {:induction false} IntoleranceBadgesKind(xs: seq<Intolerance>)
    ensures forall x :: x in IntoleranceBadges(xs) ==> x.IntoleranceBadge?
  {
    if xs != [] {
      IntoleranceBadgesKind(xs[1..]);
    }
  }

  lemma {:induction false} IntoleranceBadgesMember(xs: seq<Intolerance>, v: Intolerance)
    ensures IntoleranceBadge(v) in IntoleranceBadges(xs) <==> v in xs
  {
    if xs != [] {
      IntoleranceBadgesMember(xs[1..], v);
      assert xs == [xs[0]] + xs[1..];
    }
  }

  lemma {:induction false} IntoleranceBadgesNoDuplicates(xs: seq<Intolerance>)
    requires NoDuplicates(xs)
    ensures NoDuplicates(IntoleranceBadges(xs))
  {
    if xs != [] {
      IntoleranceBadgesNoDuplicates(xs[1..]);
      IntoleranceBadgesMember(xs[1..], xs[0]);
      assert xs[0] !in xs[1..];
    }
  }

  lemma {:induction false} NoDuplicatesCount<T>(xs: seq<T>, x: T)
    requires NoDuplicates(xs) && x in xs
    ensures multiset(xs)[x] == 1
  {
    if xs[0] == x {
      assert x !in xs[1..];
      assert xs == [xs[0]] + xs[1..];
    } else {
      NoDuplicatesCount(xs[1..], x);
      assert xs == [xs[0]] + xs[1..];
    }
  }

  /** The three parts of the badge row. */
  lemma BadgesParts(f: Filters)
    ensures Badges(f) == DietBadges(f) + IntoleranceBadges(f.intolerances) + TimeBadges(f)
    ensures forall x :: x in DietBadges(f) ==> x.DietBadge?
    ensures forall x :: x in IntoleranceBadges(f.intolerances) ==> x.IntoleranceBadge?
    ensures forall x :: x in TimeBadges(f) ==> x.TimeBadge?
  {
    IntoleranceBadgesKind(f.intolerances);
  }

  lemma RemoveDietBadge(f: Filters, b: Badge)
    requires b.DietBadge? && b in Badges(f)
    ensures multiset(Badges(RemoveBadge(f, b))) == multiset(Badges(f)) - multiset{b}
  {
    BadgesParts(f);
    BadgesParts(RemoveBadge(f, b));
    assert b in DietBadges(f);
    assert DietBadges(f) == [b];
  }

  lemma RemoveTimeBadge(f: Filters, b: Badge)
    requires b.TimeBadge? && b in Badges(f)
    ensures multiset(Badges(RemoveBadge(f, b))) == multiset(Badges(f)) - multiset{b}
  {
    BadgesParts(f);
    BadgesParts(RemoveBadge(f, b));
    assert b in TimeBadges(f);
    assert TimeBadges(f) == [b];
  }

  lemma RemoveIntoleranceBadge(f: Filters, b: Badge)
    requires b.IntoleranceBadge? && b in Badges(f) && NoDuplicates(f.intolerances)
    ensures multiset(Badges(RemoveBadge(f, b))) == multiset(Badges(f)) - multiset{b}
  {
    var g := RemoveBadge(f, b);
    var mid := IntoleranceBadges(f.intolerances);
    var m := multiset(mid);
    assert b in mid by {
      assert b !in DietBadges(f) && b !in TimeBadges(f);
    }
    assert multiset(IntoleranceBadges(g.intolerances)) == m - multiset{b} by {
      IntoleranceBadgesOmit(f.intolerances, b.intolerance);
      OmitMultiset(mid, b);
      IntoleranceBadgesNoDuplicates(f.intolerances);
      NoDuplicatesCount(mid, b);
    }
    assert DietBadges(g) == DietBadges(f) && TimeBadges(g) == TimeBadges(f);
    RemoveFromMiddle(multiset(DietBadges(f)), m, multiset(TimeBadges(f)), b);
  }

  lemma RemoveFromMiddle<T>(d: multiset<T>, m: multiset<T>, t: multiset<T>, b: T)
    requires b in m
    ensures d + m + t - multiset{b} == d + (m - multiset{b}) + t
  {
  }

  /**
   * Removing a badge that is shown takes exactly that badge off the row
   * (when the applied intolerances have no duplicates) and lowers the
   * count by one; every other badge stays.
   */
  lemma RemoveShownBadge(f: Filters, b: Badge)
    requires b in Badges(f) && NoDuplicates(f.intolerances)
    ensures multiset(Badges(RemoveBadge(f, b))) == multiset(Badges(f)) - multiset{b}
    ensures ActiveFilterCount(RemoveBadge(f, b)) == ActiveFilterCount(f) - 1
  {
    match b {
      case DietBadge(_) => RemoveDietBadge(f, b);
      case IntoleranceBadge(_) => RemoveIntoleranceBadge(f, b);
      case TimeBadge(_) => RemoveTimeBadge(f, b);
    }
    var g := RemoveBadge(f, b);
    CountIsBadgeCount(f);
    CountIsBadgeCount(g);
    assert |multiset(Badges(g))| == |multiset(Badges(f))| - 1;
  }

  // ---------------------------------------------------------------------
  // The editor state
  // ---------------------------------------------------------------------

  /** The popover's draft (`localFilters`), initialised from the applied value. */
  class FilterEditor {
    var draft: Filters

    constructor (active: Filters)
      ensures draft == active
    {
      draft := active;
    }

    /** `handleDietChange`: only the draft's diet changes; nothing is sent. */
    method ChangeDiet(diet: Diet)
      modifies this
      ensures draft == old(draft).(diet := diet)
    {
      draft := draft.(diet := diet);
    }

    /** `handleIntoleranceChange`: only the draft's intolerances change; nothing is sent. */
    method ChangeIntolerance(value: Intolerance)
      modifies this
      ensures draft == old(draft).(intolerances := ToggleIntolerance(old(draft).intolerances, value))
    {
      var updated: seq<Intolerance>;
      if value in draft.intolerances {
        updated := Omit(draft.intolerances, value);
      } else {
        updated := draft.intolerances + [value];
      }
      draft := draft.(intolerances := updated);
    }

    /** `handleTimeChange`: only the draft's time limit changes; nothing is sent. */
    method ChangeTime(maxReadyTime: Option<int>)
      modifies this
      ensures draft == old(draft).(maxReadyTime := maxReadyTime)
    {
      draft := draft.(maxReadyTime := maxReadyTime);
    }

    /** `applyFilters`: the draft, unchanged, is what the page receives. */
    method Apply() returns (sent: Filters)
      ensures sent == draft
    {
      sent := draft;
    }

    /** `clearFilters`: the draft and the page both get the empty filters. */
    method Clear() returns (sent: Filters)
      modifies this
      ensures sent == NoFilters && draft == NoFilters
    {
      draft := NoFilters;
      sent := NoFilters;
    }

    /**
     * A badge's remove button: computed from the applied value (not the
     * draft), sent to the page, and copied into the draft.
     */
    method RemoveBadgeOf(active: Filters, badge: Badge) returns (sent: Filters)
      requires badge in Badges(active)
      modifies this
      ensures sent == RemoveBadge(active, badge) && draft == sent
    {
      match badge {
        case DietBadge(_) =>
          sent := active.(diet := AnyDiet);
        case IntoleranceBadge(i) =>
          sent := active.(intolerances := Omit(active.intolerances, i));
        case TimeBadge(_) =>
          sent := active.(maxReadyTime := None);
      }
      draft := sent;
    }
  }
}
