/** Singly linked lists whose links live in the nodes, as meta::intrusive_forward_list_node. */
module IntrusiveList {
  import opened Options

  /** Following next from h gives the nodes of chain, and then null. */
  ghost predicate Linked(next: map<nat, Option<nat>>, h: Option<nat>, chain: seq<nat>)
    decreases chain
  {
    if chain == [] then h == None
    else h == Some(chain[0]) && chain[0] in next && Linked(next, next[chain[0]], chain[1..])
  }

  lemma {:induction false} LinkedUnique(next: map<nat, Option<nat>>, h: Option<nat>, c: seq<nat>, d: seq<nat>)
    requires Linked(next, h, c) && Linked(next, h, d)
    ensures c == d
    decreases c
  {
    if c != [] {
      LinkedUnique(next, next[c[0]], c[1..], d[1..]);
    }
  }

  /** A node outside the list can be rewritten without the list noticing. */
  lemma {:induction false} LinkedFrame(next: map<nat, Option<nat>>, h: Option<nat>, c: seq<nat>, x: nat, v: Option<nat>)
    requires Linked(next, h, c) && x !in c
    ensures Linked(next[x := v], h, c)
    decreases c
  {
    if c != [] {
      LinkedFrame(next, next[c[0]], c[1..], x, v);
    }
  }

  /** The nodes met by following the next pointers from h. */
  ghost function Follow(next: map<nat, Option<nat>>, h: Option<nat>): (chain: seq<nat>)
    ensures (exists c :: Linked(next, h, c)) ==> Linked(next, h, chain)
  {
    if exists c :: Linked(next, h, c) then var c :| Linked(next, h, c); c else []
  }

  /** Linking a node that is in no list to the head makes it the new head. */
  lemma LinkedPush(next: map<nat, Option<nat>>, h: Option<nat>, x: nat)
    requires (exists c :: Linked(next, h, c)) && x in next && next[x] == h
    ensures Linked(next, Some(x), [x] + Follow(next, h)) && Follow(next, Some(x)) == [x] + Follow(next, h)
  {
    assert ([x] + Follow(next, h))[1..] == Follow(next, h);
    assert Linked(next, Some(x), [x] + Follow(next, h));
    LinkedUnique(next, Some(x), [x] + Follow(next, h), Follow(next, Some(x)));
  }

  lemma FollowNone(next: map<nat, Option<nat>>)
    ensures Linked(next, None, []) && Follow(next, None) == []
  {
    assert Linked(next, None, []);
    LinkedUnique(next, None, [], Follow(next, None));
  }

  /** Rewriting the link of a node outside the list changes nothing in it. */
  lemma FollowFrame(next: map<nat, Option<nat>>, h: Option<nat>, x: nat, v: Option<nat>)
    requires (exists c :: Linked(next, h, c)) && x !in Follow(next, h)
    ensures Linked(next[x := v], h, Follow(next, h)) && Follow(next[x := v], h) == Follow(next, h)
  {
    LinkedFrame(next, h, Follow(next, h), x, v);
    LinkedUnique(next[x := v], h, Follow(next, h), Follow(next[x := v], h));
  }
}
