// get_comments_with_replies: the comment records of a pass organised into
// top-level comments with their replies, the orphaned replies, and the
// totals, with the top-level comments newest first and each reply list
// oldest first.

module CommentTree {
  import opened Json
  import opened Sorting
  import opened CommentRecords
  import opened Flatten

  /** `comment.get('comment_id')`, `comment.get('reply_id', '0')` and `x.get('create_time', 0)` of a detail record. */
  function CommentIdOf(r: Tagged): JSON { if r.item.Detailed? then r.item.d.CommentId() else JNull }
  function ReplyIdOf(r: Tagged): JSON { if r.item.Detailed? then r.item.d.ReplyId() else JStr("0") }
  function CreateTimeOf(r: Tagged): JSON { if r.item.Detailed? then r.item.d.CreateTime() else JNull }

  /** A detail record whose reply id is the string "0" is a top-level comment. */
  predicate IsTop(r: Tagged) { r.item.Detailed? && ReplyIdOf(r) == JStr("0") }
  predicate IsReply(r: Tagged) { r.item.Detailed? && ReplyIdOf(r) != JStr("0") }

  /** A top-level comment with the replies appended to its `replies` list (a reply's own list stays empty). */
  datatype Node = Node(rec: Tagged, replies: seq<Tagged>)

  /** What `comment_tree` holds under a key: the top-level comment at an index, or the orphaned-replies list. */
  datatype Slot = TopAt(index: nat) | OrphanList

  const OrphanKey: PyKey := HStr("orphaned_replies")

  /** `top_level_comments`, `comment_tree`, and the orphaned-replies list it may hold. */
  datatype Tree = Tree(top: seq<Node>, slots: map<PyKey, Slot>, orphans: seq<Tagged>)

  const EmptyTree: Tree := Tree([], map[], [])

  /** Every top-level slot names a comment of `top` whose id hashes to that key. */
  predicate Valid(t: Tree)
  {
    forall k :: k in t.slots && t.slots[k].TopAt? ==>
      t.slots[k].index < |t.top| && HashKey(CommentIdOf(t.top[t.slots[k].index].rec)) == Ok(k)
  }

  /**
   * One record of the loop: error records are skipped; a top-level comment
   * is appended and registered under its id (TypeError for an unhashable
   * id); a reply goes under the comment registered with its reply id
   * (TypeError when that key holds the orphan list, or when the reply id is
   * unhashable), else onto the orphan list, created on first use
   * (AttributeError when the key `'orphaned_replies'` holds a comment).
   */
  function Step(t: Tree, r: Tagged): (s: Outcome<Tree>)
    requires Valid(t)
    ensures s.Ok? ==> Valid(s.value)
  {
    if !r.item.Detailed? then Ok(t)
    else if ReplyIdOf(r) == JStr("0") then
      var key :- HashKey(CommentIdOf(r));
      Ok(Tree(t.top + [Node(r, [])], t.slots[key := TopAt(|t.top|)], t.orphans))
    else
      var key :- HashKey(ReplyIdOf(r));
      if key in t.slots then
        var slot := t.slots[key];
        if slot.OrphanList? then Raise(TypeError)
        else
          var parent := t.top[slot.index];
          Ok(t.(top := t.top[slot.index := Node(parent.rec, parent.replies + [r])]))
      else
        var slots := if OrphanKey in t.slots then t.slots else t.slots[OrphanKey := OrphanList];
        if slots[OrphanKey].TopAt? then Raise(AttributeError)
        else Ok(Tree(t.top, slots, t.orphans + [r]))
  }

  /** The loop over the records. */
  function Build(all: seq<Tagged>): (r: Outcome<Tree>)
    ensures r.Ok? ==> Valid(r.value)
  {
    if all == [] then Ok(EmptyTree)
    else
      var t :- Build(all[..|all| - 1]);
      Step(t, all[|all| - 1])
  }

  // ---------------------------------------------------------------------
  // What the loop keeps

  function Tops(all: seq<Tagged>): seq<Tagged>
  {
    if all == [] then [] else Tops(all[..|all| - 1]) + (if IsTop(all[|all| - 1]) then [all[|all| - 1]] else [])
  }

  function Replies(all: seq<Tagged>): seq<Tagged>
  {
    if all == [] then [] else Replies(all[..|all| - 1]) + (if IsReply(all[|all| - 1]) then [all[|all| - 1]] else [])
  }

  function RecOf(n: Node): seq<Tagged> { [n.rec] }
  function RepliesOf(n: Node): seq<Tagged> { n.replies }

  /** Every reply sits under a comment whose id is the reply's reply id. */
  predicate ParentsMatch(top: seq<Node>)
  {
    forall i, j :: 0 <= i < |top| && 0 <= j < |top[i].replies| ==>
      HashKey(ReplyIdOf(top[i].replies[j])) == HashKey(CommentIdOf(top[i].rec))
  }

  /** Appending a reply under the comment at `i` adds it to that comment's replies and to no other. */
  lemma AppendReply(top: seq<Node>, i: nat, r: Tagged)
    requires i < |top|
    ensures var s := top[i := Node(top[i].rec, top[i].replies + [r])];
            Flat(RecOf, s) == Flat(RecOf, top) &&
            multiset(Flat(RepliesOf, s)) == multiset(Flat(RepliesOf, top)) + multiset{r}
  {
    var n := Node(top[i].rec, top[i].replies + [r]);
    FlatSplit(RecOf, top, i);
    FlatUpdate(RecOf, top, i, n);
    FlatSplit(RepliesOf, top, i);
    FlatUpdate(RepliesOf, top, i, n);
  }

  /** ... under the comment its reply id names. */
  lemma AppendReplyParent(top: seq<Node>, i: nat, r: Tagged)
    requires i < |top| && ParentsMatch(top)
    requires HashKey(ReplyIdOf(r)) == HashKey(CommentIdOf(top[i].rec))
    ensures ParentsMatch(top[i := Node(top[i].rec, top[i].replies + [r])])
  {
    var s := top[i := Node(top[i].rec, top[i].replies + [r])];
    forall a, b | 0 <= a < |s| && 0 <= b < |s[a].replies|
      ensures HashKey(ReplyIdOf(s[a].replies[b])) == HashKey(CommentIdOf(s[a].rec))
    {
      if a != i {
        assert s[a] == top[a];
      } else if b < |top[i].replies| {
        assert s[a].replies[b] == top[i].replies[b];
      }
    }
  }

  /** Appending a top-level comment adds its record and no replies. */
  lemma AppendTop(top: seq<Node>, r: Tagged)
    requires ParentsMatch(top)
    ensures Flat(RecOf, top + [Node(r, [])]) == Flat(RecOf, top) + [r]
    ensures Flat(RepliesOf, top + [Node(r, [])]) == Flat(RepliesOf, top)
    ensures ParentsMatch(top + [Node(r, [])])
  {
    var s := top + [Node(r, [])];
    assert s[..|s| - 1] == top;
    forall i, j | 0 <= i < |s| && 0 <= j < |s[i].replies|
      ensures HashKey(ReplyIdOf(s[i].replies[j])) == HashKey(CommentIdOf(s[i].rec))
    {
      assert i < |top| && s[i] == top[i];
    }
  }

  /** `s` extends `t` by the record `r`: its comment if it is top-level, its reply somewhere if it is a reply. */
  predicate Keeps(t: Tree, r: Tagged, s: Tree)
  {
    Flat(RecOf, s.top) == Flat(RecOf, t.top) + (if IsTop(r) then [r] else []) &&
    multiset(Flat(RepliesOf, s.top)) + multiset(s.orphans) ==
      multiset(Flat(RepliesOf, t.top)) + multiset(t.orphans) + multiset(if IsReply(r) then [r] else []) &&
    ParentsMatch(s.top)
  }

  lemma KeepsTop(t: Tree, r: Tagged, s: Tree)
    requires ParentsMatch(t.top) && IsTop(r)
    requires s.top == t.top + [Node(r, [])] && s.orphans == t.orphans
    ensures Keeps(t, r, s)
  {
    AppendTop(t.top, r);
  }

  lemma KeepsUnder(t: Tree, r: Tagged, s: Tree, i: nat)
    requires ParentsMatch(t.top) && IsReply(r) && i < |t.top|
    requires HashKey(ReplyIdOf(r)) == HashKey(CommentIdOf(t.top[i].rec))
    requires s.top == t.top[i := Node(t.top[i].rec, t.top[i].replies + [r])] && s.orphans == t.orphans
    ensures Keeps(t, r, s)
  {
    AppendReply(t.top, i, r);
    AppendReplyParent(t.top, i, r);
  }

  lemma KeepsOrphan(t: Tree, r: Tagged, s: Tree)
    requires ParentsMatch(t.top) && IsReply(r)
    requires s.top == t.top && s.orphans == t.orphans + [r]
    ensures Keeps(t, r, s)
  {
  }

  /** One record of the loop keeps the top-level comments in order and every reply exactly once. */
  lemma StepKeeps(t: Tree, r: Tagged)
    requires Valid(t) && ParentsMatch(t.top) && Step(t, r).Ok?
    ensures Keeps(t, r, Step(t, r).value)
  {
    var s := Step(t, r).value;
    if !r.item.Detailed? {
      assert s == t;
    } else if ReplyIdOf(r) == JStr("0") {
      KeepsTop(t, r, s);
    } else {
      var key := HashKey(ReplyIdOf(r)).value;
      if key in t.slots {
        KeepsUnder(t, r, s, t.slots[key].index);
      } else {
        KeepsOrphan(t, r, s);
      }
    }
  }

  /**
   * The loop keeps, in order, exactly the top-level comments; every reply
   * ends up either under the comment its reply id names or on the orphan
   * list, each exactly once.
   */
  lemma {:induction false} BuildKeeps(all: seq<Tagged>)
    requires Build(all).Ok?
    ensures var t := Build(all).value;
            Flat(RecOf, t.top) == Tops(all) &&
            multiset(Flat(RepliesOf, t.top)) + multiset(t.orphans) == multiset(Replies(all)) &&
            ParentsMatch(t.top)
  {
    if all != [] {
      var init := all[..|all| - 1];
      BuildKeeps(init);
      StepKeeps(Build(init).value, all[|all| - 1]);
    }
  }

  /**
   * The loop keeps, in order, exactly the top-level comments; it orphans
   * exactly the replies read before any comment they name, and puts every
   * other reply under a comment with the id it names, each exactly once.
   */
  lemma BuildPlaces(all: seq<Tagged>)
    requires Build(all).Ok?
    ensures var t := Build(all).value;
            Flat(RecOf, t.top) == Tops(all) &&
            t.orphans == Orphans(all) &&
            multiset(Flat(RepliesOf, t.top)) + multiset(Orphans(all)) == multiset(Replies(all)) &&
            ParentsMatch(t.top)
  {
    BuildKeeps(all);
    BuildOrphanList(all);
  }

  // ---------------------------------------------------------------------
  // Which replies are orphaned

  /** Some top-level comment among `prev` has an id hashing to `k`. */
  predicate Named(prev: seq<Tagged>, k: PyKey)
  {
    exists j :: 0 <= j < |prev| && IsTop(prev[j]) && HashKey(CommentIdOf(prev[j])) == Ok(k)
  }

  /** Some top-level comment among `prev` has the id the reply `r` names. */
  predicate NamedBefore(prev: seq<Tagged>, r: Tagged)
  {
    exists j :: 0 <= j < |prev| && IsTop(prev[j]) && HashKey(CommentIdOf(prev[j])) == HashKey(ReplyIdOf(r))
  }

  /**
   * The replies whose parent has not been read before them, in order: the
   * replies no earlier top-level comment names.
   */
  function Orphans(all: seq<Tagged>): seq<Tagged>
  {
    if all == [] then []
    else
      var prev, r := all[..|all| - 1], all[|all| - 1];
      Orphans(prev) + (if IsReply(r) && !NamedBefore(prev, r) then [r] else [])
  }

  /** After the loop, a key holds a top-level comment exactly when some top-level comment read has that id. */
  ghost predicate SlotsNameTops(all: seq<Tagged>, t: Tree)
  {
    forall k :: (k in t.slots && t.slots[k].TopAt?) <==> Named(all, k)
  }

  /** A record that is not top-level names no new key. */
  lemma NamedSkip(prev: seq<Tagged>, r: Tagged, k: PyKey)
    requires !IsTop(r)
    ensures Named(prev + [r], k) <==> Named(prev, k)
  {
    var all := prev + [r];
    if Named(all, k) {
      var j :| 0 <= j < |all| && IsTop(all[j]) && HashKey(CommentIdOf(all[j])) == Ok(k);
      assert j < |prev| && all[j] == prev[j];
    }
    if Named(prev, k) {
      var j :| 0 <= j < |prev| && IsTop(prev[j]) && HashKey(CommentIdOf(prev[j])) == Ok(k);
      assert all[j] == prev[j];
    }
  }

  /** A top-level record names its own key besides the earlier ones. */
  lemma NamedTop(prev: seq<Tagged>, r: Tagged, key: PyKey, k: PyKey)
    requires IsTop(r) && HashKey(CommentIdOf(r)) == Ok(key)
    ensures Named(prev + [r], k) <==> Named(prev, k) || k == key
  {
    var all := prev + [r];
    assert all[|prev|] == r;
    if Named(all, k) && k != key {
      var j :| 0 <= j < |all| && IsTop(all[j]) && HashKey(CommentIdOf(all[j])) == Ok(k);
      assert j < |prev| && all[j] == prev[j];
    }
    if Named(prev, k) {
      var j :| 0 <= j < |prev| && IsTop(prev[j]) && HashKey(CommentIdOf(prev[j])) == Ok(k);
      assert all[j] == prev[j];
    }
  }

  /** A top-level record registers its own key and leaves every other slot alone. */
  lemma StepSlotsTop(prev: seq<Tagged>, t: Tree, r: Tagged)
    requires Valid(t) && SlotsNameTops(prev, t) && IsTop(r) && Step(t, r).Ok?
    ensures SlotsNameTops(prev + [r], Step(t, r).value)
  {
    var key := HashKey(CommentIdOf(r)).value;
    var s := Step(t, r).value;
    assert s.slots == t.slots[key := TopAt(|t.top|)];
    forall k ensures (k in s.slots && s.slots[k].TopAt?) <==> Named(prev + [r], k) {
      NamedTop(prev, r, key, k);
    }
  }

  /** Another record adds at most the orphan list, under a key no comment read has. */
  lemma StepSlotsOther(prev: seq<Tagged>, t: Tree, r: Tagged)
    requires Valid(t) && SlotsNameTops(prev, t) && !IsTop(r) && Step(t, r).Ok?
    ensures SlotsNameTops(prev + [r], Step(t, r).value)
  {
    var s := Step(t, r).value;
    StepKeepsTopSlots(t, r);
    forall k ensures (k in s.slots && s.slots[k].TopAt?) <==> Named(prev + [r], k) {
      NamedSkip(prev, r, k);
    }
  }

  /** A record that is not top-level keeps every top-level slot and adds none. */
  lemma StepKeepsTopSlots(t: Tree, r: Tagged)
    requires Valid(t) && !IsTop(r) && Step(t, r).Ok?
    ensures var s := Step(t, r).value;
            forall k :: k in s.slots && s.slots[k].TopAt? <==> k in t.slots && t.slots[k].TopAt?
  {
    var s := Step(t, r).value;
    if !r.item.Detailed? {
      assert s == t;
    } else if HashKey(ReplyIdOf(r)).value in t.slots {
      assert s.slots == t.slots;
    } else if OrphanKey in t.slots {
      assert s.slots == t.slots;
    } else {
      assert s.slots == t.slots[OrphanKey := OrphanList];
    }
  }

  /** One record keeps the slots naming exactly the top-level comments read. */
  lemma StepSlots(prev: seq<Tagged>, t: Tree, r: Tagged)
    requires Valid(t) && SlotsNameTops(prev, t) && Step(t, r).Ok?
    ensures SlotsNameTops(prev + [r], Step(t, r).value)
  {
    if IsTop(r) {
      StepSlotsTop(prev, t, r);
    } else {
      StepSlotsOther(prev, t, r);
    }
  }

  /** The slots of a successful loop name exactly the top-level comments read. */
  lemma {:induction false} BuildSlots(all: seq<Tagged>)
    requires Build(all).Ok?
    ensures SlotsNameTops(all, Build(all).value)
  {
    if all == [] {
      forall k ensures !Named(all, k) { }
    } else {
      var prev := all[..|all| - 1];
      BuildSlots(prev);
      StepSlots(prev, Build(prev).value, all[|all| - 1]);
      assert prev + [all[|all| - 1]] == all;
    }
  }

  /** One record adds itself to the orphan list exactly when it is a reply no earlier comment names. */
  lemma StepOrphans(prev: seq<Tagged>, t: Tree, r: Tagged)
    requires Valid(t) && SlotsNameTops(prev, t) && Step(t, r).Ok?
    ensures Step(t, r).value.orphans == t.orphans + (if IsReply(r) && !NamedBefore(prev, r) then [r] else [])
  {
    if IsReply(r) {
      var key := HashKey(ReplyIdOf(r)).value;
      assert NamedBefore(prev, r) <==> Named(prev, key);
    }
  }

  /**
   * A successful loop orphans exactly the replies whose parent was not read
   * before them, in the order they were read.
   */
  lemma {:induction false} BuildOrphanList(all: seq<Tagged>)
    requires Build(all).Ok?
    ensures Build(all).value.orphans == Orphans(all)
  {
    if all != [] {
      var prev := all[..|all| - 1];
      BuildOrphanList(prev);
      BuildSlots(prev);
      StepOrphans(prev, Build(prev).value, all[|all| - 1]);
    }
  }

  /** No top-level comment's id is the key `'orphaned_replies'`. */
  predicate NoOrphanId(all: seq<Tagged>)
  {
    forall k :: 0 <= k < |all| && IsTop(all[k]) ==> HashKey(CommentIdOf(all[k])) != Ok(OrphanKey)
  }

  /**
   * The orphan list exists once a reply has been orphaned, and without a
   * top-level comment named `'orphaned_replies'` nothing replaces it.
   */
  lemma {:induction false} BuildOrphans(all: seq<Tagged>)
    requires Build(all).Ok?
    ensures var t := Build(all).value;
            (OrphanKey !in t.slots ==> t.orphans == []) &&
            (NoOrphanId(all) && OrphanKey in t.slots ==> t.slots[OrphanKey] == OrphanList)
  {
    if all != [] {
      var init := all[..|all| - 1];
      var r := all[|all| - 1];
      assert NoOrphanId(all) ==> NoOrphanId(init) by {
        forall k | 0 <= k < |init| ensures all[k] == init[k] { }
      }
      BuildOrphans(init);
      var t := Build(init).value;
      assert NoOrphanId(all) && IsTop(r) ==> HashKey(CommentIdOf(r)) != Ok(OrphanKey);
    }
  }

  /** A reply read before its parent lands on the orphan list, and the parent keeps no replies. */
  lemma ReplyBeforeParent(parent: Tagged, reply: Tagged)
    requires parent.item.Detailed? && reply.item.Detailed?
    requires ReplyIdOf(parent) == JStr("0") && CommentIdOf(parent) == JStr("1") && ReplyIdOf(reply) == JStr("1")
    ensures Build([reply, parent]) == Ok(Tree([Node(parent, [])], map[OrphanKey := OrphanList, HStr("1") := TopAt(0)], [reply]))
  {
    assert "1"[0] != "0"[0];
    assert HashKey(JStr("1")) == Ok(HStr("1"));
    var slots := map[OrphanKey := OrphanList];
    assert EmptyTree.slots[OrphanKey := OrphanList] == slots;
    assert [] + [reply] == [reply];
    var t1 := Tree([], slots, [reply]);
    assert Step(EmptyTree, reply) == Ok(t1);
    assert [reply][..0] == [];
    assert Build([reply]) == Ok(t1);
    assert [reply, parent][..1] == [reply];
    assert HStr("1") != OrphanKey;
    assert [] + [Node(parent, [])] == [Node(parent, [])];
    assert Step(t1, parent) == Ok(Tree([Node(parent, [])], slots[HStr("1") := TopAt(0)], [reply]));
  }

  // ---------------------------------------------------------------------
  // Sorting and the result

  function NodeKey(n: Node): SortKey { KeyOf(CreateTimeOf(n.rec)) }
  function RecKey(r: Tagged): SortKey { KeyOf(CreateTimeOf(r)) }

  /** `comment['replies'].sort(key=lambda x: x.get('create_time', 0))` when the list is not empty. */
  function SortNode(n: Node): (r: Outcome<Node>)
    ensures r.Ok? ==> r.value.rec == n.rec && Sorted(RecKey, false, r.value.replies) &&
                      multiset(r.value.replies) == multiset(n.replies)
    ensures r.Raise? ==> r.exc == TypeError
  {
    if n.replies == [] then Ok(n)
    else
      var rs :- PySort(RecKey, false, n.replies);
      Ok(Node(n.rec, rs))
  }

  /** The loop sorting each comment's replies. */
  function SortAll(ns: seq<Node>): (r: Outcome<seq<Node>>)
    ensures r.Ok? ==> |r.value| == |ns| &&
                      forall i :: 0 <= i < |ns| ==> SortNode(ns[i]) == Ok(r.value[i])
    ensures r.Raise? ==> r.exc == TypeError
  {
    if ns == [] then Ok([])
    else
      var prev :- SortAll(ns[..|ns| - 1]);
      var n :- SortNode(ns[|ns| - 1]);
      Ok(prev + [n])
  }

  /** `comment_tree.get('orphaned_replies', [])` */
  datatype Orphaned = OrphanReplies(replies: seq<Tagged>) | OrphanComment(node: Node)

  datatype Organized =
    | Unorganized
    | Organized(comments: seq<Node>, totalComments: nat, totalReplies: nat, totalAll: nat, orphaned: Orphaned)

  function TotalReplies(ns: seq<Node>): nat
  {
    if ns == [] then 0 else TotalReplies(ns[..|ns| - 1]) + |ns[|ns| - 1].replies|
  }

  /** The orphaned replies of the result, read after the sorts. */
  function OrphanedOf(t: Tree): Outcome<Orphaned>
    requires Valid(t)
  {
    if OrphanKey !in t.slots then Ok(OrphanReplies([]))
    else if t.slots[OrphanKey].OrphanList? then Ok(OrphanReplies(t.orphans))
    else
      var n :- SortNode(t.top[t.slots[OrphanKey].index]);
      Ok(OrphanComment(n))
  }

  /**
   * `get_comments_with_replies()` on the records of a pass: nothing
   * organised without records; otherwise the tree, the top-level comments
   * sorted newest first, each reply list sorted oldest first, and the
   * totals. A TypeError or AttributeError of the loop or the sorts escapes.
   */
  function Organize(all: seq<Tagged>): Outcome<Organized>
  {
    if all == [] then Ok(Unorganized)
    else
      var t :- Build(all);
      var sortedTop :- PySort(NodeKey, true, t.top);
      var comments :- SortAll(sortedTop);
      var orphaned :- OrphanedOf(t);
      Ok(Organized(comments, |comments|, TotalReplies(comments), |all|, orphaned))
  }

  /** Without records the result is the unorganised empty one. */
  lemma OrganizeEmpty()
    ensures Organize([]) == Ok(Unorganized)
  {
  }

  /** Reordering the comments keeps every reply under its parent. */
  lemma ParentsMatchPermuted(a: seq<Node>, b: seq<Node>)
    requires multiset(a) == multiset(b) && ParentsMatch(b)
    ensures ParentsMatch(a)
  {
    forall i, j | 0 <= i < |a| && 0 <= j < |a[i].replies|
      ensures HashKey(ReplyIdOf(a[i].replies[j])) == HashKey(CommentIdOf(a[i].rec))
    {
      assert a[i] in multiset(b);
      var k :| 0 <= k < |b| && b[k] == a[i];
    }
  }

  /** Sorting each reply list keeps every reply under its parent. */
  lemma ParentsMatchSorted(ns: seq<Node>)
    requires SortAll(ns).Ok? && ParentsMatch(ns)
    ensures ParentsMatch(SortAll(ns).value)
  {
    var out := SortAll(ns).value;
    forall i, j | 0 <= i < |out| && 0 <= j < |out[i].replies|
      ensures HashKey(ReplyIdOf(out[i].replies[j])) == HashKey(CommentIdOf(out[i].rec))
    {
      assert SortNode(ns[i]) == Ok(out[i]);
      assert out[i].replies[j] in multiset(ns[i].replies);
      var k :| 0 <= k < |ns[i].replies| && ns[i].replies[k] == out[i].replies[j];
    }
  }

  /** Sorting each reply list keeps every node's record and the bag of replies. */
  lemma {:induction false} SortAllKeeps(ns: seq<Node>)
    requires SortAll(ns).Ok?
    ensures Flat(RecOf, SortAll(ns).value) == Flat(RecOf, ns)
    ensures multiset(Flat(RepliesOf, SortAll(ns).value)) == multiset(Flat(RepliesOf, ns))
  {
    if ns != [] {
      var last := |ns| - 1;
      SortAllKeeps(ns[..last]);
      var out := SortAll(ns).value;
      assert out[..last] == SortAll(ns[..last]).value;
    }
  }

  /**
   * Without a top-level comment named `'orphaned_replies'`, the orphaned
   * replies of the result are exactly the replies the loop could not place.
   */
  lemma OrganizeOrphans(all: seq<Tagged>)
    requires all != [] && Organize(all).Ok? && NoOrphanId(all)
    ensures Organize(all).value.Organized?
    ensures Organize(all).value.orphaned == OrphanReplies(Orphans(all))
  {
    BuildOrphans(all);
    BuildOrphanList(all);
  }

  /** Through the sample-log defect of the pass, one comment without text leaves nothing to organise. */
  lemma NullTextOrganizesNothing()
    ensures Organize(ReadAll(Some(JArr([NullTextResponse()])))) == Ok(Unorganized)
  {
    NullTextLosesAll();
  }

  lemma {:induction false} TotalIsFlat(ns: seq<Node>)
    ensures TotalReplies(ns) == |Flat(RepliesOf, ns)|
  {
    if ns != [] {
      TotalIsFlat(ns[..|ns| - 1]);
    }
  }

  /**
   * The organised result: its comments are the top-level comments, newest
   * first, each with its replies oldest first and each reply under a
   * comment with the id it names; together with the replies read before
   * any comment they name they hold every reply exactly once; the totals
   * count the top-level comments, their replies and every record read.
   */
  lemma OrganizeResult(all: seq<Tagged>)
    requires all != [] && Organize(all).Ok?
    ensures var o := Organize(all).value;
            var t := Build(all).value;
            o.Organized? &&
            multiset(Flat(RecOf, o.comments)) == multiset(Tops(all)) &&
            Sorted(NodeKey, true, o.comments) &&
            (forall i :: 0 <= i < |o.comments| ==> Sorted(RecKey, false, o.comments[i].replies)) &&
            ParentsMatch(o.comments) &&
            multiset(Flat(RepliesOf, o.comments)) + multiset(Orphans(all)) == multiset(Replies(all)) &&
            o.totalComments == |Tops(all)| && o.totalAll == |all| &&
            o.totalReplies + |Orphans(all)| == |Replies(all)|
  {
    var t := Build(all).value;
    var sortedTop := PySort(NodeKey, true, t.top).value;
    var o := Organize(all).value;
    BuildPlaces(all);
    ParentsMatchPermuted(sortedTop, t.top);
    ParentsMatchSorted(sortedTop);
    SortAllKeeps(sortedTop);
    FlatPermutation(RecOf, sortedTop, t.top);
    FlatPermutation(RepliesOf, sortedTop, t.top);
    TotalIsFlat(o.comments);
    FlatLength(RecOf, o.comments);
    assert |multiset(Tops(all))| == |Tops(all)|;
    forall i, j | 0 <= i < j < |o.comments| ensures Before(true, NodeKey(o.comments[i]), NodeKey(o.comments[j])) {
      assert o.comments[i].rec == sortedTop[i].rec && o.comments[j].rec == sortedTop[j].rec;
    }
    forall i | 0 <= i < |o.comments| ensures Sorted(RecKey, false, o.comments[i].replies) {
      assert SortNode(sortedTop[i]) == Ok(o.comments[i]);
    }
    assert |multiset(Flat(RepliesOf, o.comments)) + multiset(Orphans(all))| == |Replies(all)|;
  }

  // ---------------------------------------------------------------------
  // The method

  /** `get_comments_with_replies()`: the records of the pass, organised. */
  method GetCommentsWithReplies(loaded: Option<JSON>) returns (r: Outcome<Organized>)
    ensures r == Organize(ReadAll(loaded))
  {
    var all := ReadAllApiResponses(loaded);
    r := OrganizeRecords(all);
  }

  /** The loop over the records, the sorts, and the result. */
  method OrganizeRecords(all: seq<Tagged>) returns (r: Outcome<Organized>)
    ensures r == Organize(all)
  {
    if all == [] {
      return Ok(Unorganized);
    }
    var t := EmptyTree;
    var i := 0;
    while i < |all|
      invariant 0 <= i <= |all|
      invariant Build(all[..i]) == Ok(t)
    {
      BuildStep(all, i);
      var s := Step(t, all[i]);
      if s.Raise? {
        BuildRaiseExtends(all, i + 1);
        return Raise(s.exc);
      }
      t := s.value;
      i := i + 1;
    }
    assert all[..i] == all;
    var sortedTop := PySort(NodeKey, true, t.top);
    if sortedTop.Raise? {
      return Raise(sortedTop.exc);
    }
    var comments := SortReplies(sortedTop.value);
    if comments.Raise? {
      return Raise(comments.exc);
    }
    var orphaned := OrphanedOf(t);
    if orphaned.Raise? {
      return Raise(orphaned.exc);
    }
    var cs := comments.value;
    return Ok(Organized(cs, |cs|, TotalReplies(cs), |all|, orphaned.value));
  }

  /** `for comment in top_level_comments: if comment['replies']: comment['replies'].sort(...)` */
  method SortReplies(ns: seq<Node>) returns (r: Outcome<seq<Node>>)
    ensures r == SortAll(ns)
  {
    var out: seq<Node> := [];
    var i := 0;
    while i < |ns|
      invariant 0 <= i <= |ns|
      invariant SortAll(ns[..i]) == Ok(out)
    {
      SortAllStep(ns, i);
      var n := SortNode(ns[i]);
      if n.Raise? {
        SortAllRaiseExtends(ns, i + 1);
        return Raise(n.exc);
      }
      out := out + [n.value];
      i := i + 1;
    }
    assert ns[..i] == ns;
    return Ok(out);
  }

  lemma BuildStep(all: seq<Tagged>, i: nat)
    requires i < |all| && Build(all[..i]).Ok?
    ensures Build(all[..i + 1]) == Step(Build(all[..i]).value, all[i])
  {
    assert all[..i + 1][..i] == all[..i];
  }

  lemma SortAllStep(ns: seq<Node>, i: nat)
    requires i < |ns| && SortAll(ns[..i]).Ok?
    ensures SortAll(ns[..i + 1]) ==
            (var n := SortNode(ns[i]); if n.Raise? then Raise(n.exc) else Ok(SortAll(ns[..i]).value + [n.value]))
  {
    assert ns[..i + 1][..i] == ns[..i];
  }

  lemma {:induction false} BuildRaiseExtends(all: seq<Tagged>, i: nat)
    requires i <= |all| && Build(all[..i]).Raise?
    ensures Build(all) == Build(all[..i])
    decreases |all| - i
  {
    if i < |all| {
      assert all[..i + 1][..i] == all[..i];
      BuildRaiseExtends(all, i + 1);
    } else {
      assert all[..i] == all;
    }
  }

  lemma {:induction false} SortAllRaiseExtends(ns: seq<Node>, i: nat)
    requires i <= |ns| && SortAll(ns[..i]).Raise?
    ensures SortAll(ns) == SortAll(ns[..i])
    decreases |ns| - i
  {
    if i < |ns| {
      assert ns[..i + 1][..i] == ns[..i];
      SortAllRaiseExtends(ns, i + 1);
    } else {
      assert ns[..i] == ns;
    }
  }
}
