/** The patient-alerts panel of the warrior dashboard
    (src/components/dashboard/NotificationsPanel.tsx): the count of new
    notifications, the badge that shows it, and the list of cards. */
module NotificationsPanel {

  datatype Urgency = Critical | Moderate | Low

  /** A notification as the bundled data defines it. */
  datatype Notification = Notification(
    id: string,
    patientName: string,
    address: string,
    distance: string,
    urgency: Urgency,
    timestamp: string,
    issue: string,
    isNew: bool)

  /** `notifications.filter(n => n.isNew)` */
  function NewOnes(ns: seq<Notification>): (r: seq<Notification>)
    ensures |r| <= |ns|
    ensures forall i :: 0 <= i < |r| ==> r[i].isNew && r[i] in ns
    decreases |ns|
  {
    if ns == [] then []
    else if ns[0].isNew then [ns[0]] + NewOnes(ns[1..])
    else NewOnes(ns[1..])
  }

  /** `newCount` */
  function NewCount(ns: seq<Notification>): (r: nat)
    ensures 0 <= r <= |ns|
  {
    |NewOnes(ns)|
  }

  /** The positions below `k` that hold a new notification: an independent
      count. */
  function NewIndicesBelow(ns: seq<Notification>, k: int): set<int> {
    set i | 0 <= i < k && i < |ns| && ns[i].isNew
  }

  /** Filtering a list with one more element at the end. */
  lemma {:induction false} NewOnesSnoc(a: seq<Notification>, x: Notification)
    ensures NewOnes(a + [x]) == NewOnes(a) + (if x.isNew then [x] else [])
    decreases |a|
  {
    if a != [] {
      assert (a + [x])[1..] == a[1..] + [x];
      NewOnesSnoc(a[1..], x);
    } else {
      assert a + [x] == [x];
    }
  }

  /** The count over the first `k` notifications is the number of positions
      below `k` holding a new one. */
  lemma {:induction false} NewCountPrefix(ns: seq<Notification>, k: nat)
    requires k <= |ns|
    ensures NewCount(ns[..k]) == |NewIndicesBelow(ns, k)|
    decreases k
  {
    if k == 0 {
      assert NewIndicesBelow(ns, 0) == {};
    } else {
      NewCountPrefix(ns, k - 1);
      assert ns[..k] == ns[..k - 1] + [ns[k - 1]];
      NewOnesSnoc(ns[..k - 1], ns[k - 1]);
      assert k - 1 !in NewIndicesBelow(ns, k - 1);
      if ns[k - 1].isNew {
        assert NewIndicesBelow(ns, k) == NewIndicesBelow(ns, k - 1) + {k - 1};
      } else {
        assert NewIndicesBelow(ns, k) == NewIndicesBelow(ns, k - 1);
      }
    }
  }

  /** `newCount` is the number of positions holding a new notification. */
  lemma NewCountCountsNew(ns: seq<Notification>)
    ensures NewCount(ns) == |NewIndicesBelow(ns, |ns|)|
  {
    NewCountPrefix(ns, |ns|);
    assert ns[..|ns|] == ns;
  }

  /** The count is zero exactly when none is new and the list's length
      exactly when all are. */
  lemma {:induction false} NewCountExtremes(ns: seq<Notification>)
    ensures NewCount(ns) == 0 <==> forall i :: 0 <= i < |ns| ==> !ns[i].isNew
    ensures NewCount(ns) == |ns| <==> forall i :: 0 <= i < |ns| ==> ns[i].isNew
    decreases |ns|
  {
    if ns != [] {
      NewCountExtremes(ns[1..]);
      assert forall i :: 1 <= i < |ns| ==> ns[i] == ns[1..][i - 1];
    }
  }

  /** `newCount > 0`: the "N new" badge. */
  predicate ShowBadge(ns: seq<Notification>) {
    NewCount(ns) > 0
  }

  /** The badge shows exactly when some notification is new. */
  lemma BadgeIffSomeNew(ns: seq<Notification>)
    ensures ShowBadge(ns) <==> exists i :: 0 <= i < |ns| && ns[i].isNew
  {
    NewCountExtremes(ns);
  }

  /** The keys of the rendered cards, one per notification in list order. */
  function CardKeys(ns: seq<Notification>): (r: seq<string>)
    ensures |r| == |ns|
    ensures forall i :: 0 <= i < |r| ==> r[i] == ns[i].id
  {
    seq(|ns|, i requires 0 <= i < |ns| => ns[i].id)
  }

  /** The bundled notifications (src/data/mockData.ts). */
  const Bundled: seq<Notification> := [
    Notification("1", "Ramesh Kumar", "42, MG Road, Sector 15, Gurugram, Haryana 122001", "1.2 km",
                 Critical, "2 min ago", "Cardiac emergency — chest pain reported", true),
    Notification("2", "Priya Sharma", "B-204, Sunrise Apartments, Dwarka Sector 7, New Delhi 110077", "3.5 km",
                 Moderate, "8 min ago", "High fever — 103°F, needs medication delivery", true),
    Notification("3", "Anil Verma", "15, Lajpat Nagar, Central Market, New Delhi 110024", "5.1 km",
                 Low, "22 min ago", "Follow-up visit — post-surgery checkup", false),
    Notification("4", "Meena Devi", "78, Karol Bagh, WEA Block, New Delhi 110005", "2.8 km",
                 Moderate, "35 min ago", "Breathing difficulty — asthma attack", false)]

  /** With the bundled data the badge reads "2 new" and the cards are keyed
      1 to 4 in order. */
  lemma BundledPanel()
    ensures NewCount(Bundled) == 2 && ShowBadge(Bundled)
    ensures CardKeys(Bundled) == ["1", "2", "3", "4"]
  {
    assert Bundled[1..][1..][1..][1..] == [];
  }
}
