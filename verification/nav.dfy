/**
  Navigation highlighting: `setActiveNav` and the section observer's callback
  that calls it. A link is its `data-nav` key plus whether it carries the
  `active` class.
 */
module Nav {

  import opened Wrappers

  datatype Link = Link(key: string, active: bool)

  /**
    `setActiveNav(id)`: every link is toggled, with force, to active exactly when
    its key is `id`. The links keep their number, order and keys, and what was
    active before does not matter.
   */
  function SetActiveNav(links: seq<Link>, id: string): (r: seq<Link>)
    ensures |r| == |links|
    ensures forall i :: 0 <= i < |r| ==> r[i].key == links[i].key
    ensures forall i :: 0 <= i < |r| ==> (r[i].active <==> links[i].key == id)
    decreases |links|
  {
    if links == [] then []
    else [Link(links[0].key, links[0].key == id)] + SetActiveNav(links[1..], id)
  }

  /** If no key matches, no link is left active. */
  lemma NoMatchNoneActive(links: seq<Link>, id: string)
    requires forall i :: 0 <= i < |links| ==> links[i].key != id
    ensures forall i :: 0 <= i < |links| ==> !SetActiveNav(links, id)[i].active
  {
  }

  /** Keys that are pairwise distinct leave at most one link active. */
  lemma AtMostOneActive(links: seq<Link>, id: string)
    requires forall i, j :: 0 <= i < j < |links| ==> links[i].key != links[j].key
    ensures forall i, j :: 0 <= i < j < |links| ==> !(SetActiveNav(links, id)[i].active && SetActiveNav(links, id)[j].active)
  {
  }

  /** A later highlight overrides an earlier one completely. */
  lemma LastWins(links: seq<Link>, first: string, second: string)
    ensures SetActiveNav(SetActiveNav(links, first), second) == SetActiveNav(links, second)
  {
    var a := SetActiveNav(SetActiveNav(links, first), second);
    var b := SetActiveNav(links, second);
    assert forall i :: 0 <= i < |a| ==> a[i] == b[i];
  }

  /** One intersection record handed to the observer callback. */
  datatype Entry = Entry(id: string, isIntersecting: bool)

  /** The id of the last intersecting entry, if any. */
  function LastIntersecting(entries: seq<Entry>): Option<string>
    decreases |entries|
  {
    if entries == [] then None
    else if entries[|entries| - 1].isIntersecting then Some(entries[|entries| - 1].id)
    else LastIntersecting(entries[..|entries| - 1])
  }

  /**
    The section observer's callback: `setActiveNav` for each intersecting entry
    in order. Keys and order never change; with no intersecting entry nothing
    changes, and otherwise only the last intersecting section's link is active,
    since each call switches every other link off.
   */
  function OnSectionsIntersect(links: seq<Link>, entries: seq<Entry>): (r: seq<Link>)
    ensures |r| == |links|
    ensures forall i :: 0 <= i < |r| ==> r[i].key == links[i].key
    ensures LastIntersecting(entries).None? ==> r == links
    ensures LastIntersecting(entries).Some? ==>
      forall i :: 0 <= i < |r| ==> (r[i].active <==> links[i].key == LastIntersecting(entries).value)
    decreases |entries|
  {
    if entries == [] then links
    else
      var e := entries[|entries| - 1];
      var before := OnSectionsIntersect(links, entries[..|entries| - 1]);
      if e.isIntersecting then SetActiveNav(before, e.id) else before
  }
}
