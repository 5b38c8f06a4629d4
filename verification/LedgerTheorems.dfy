/** Over every run of submissions on one ledger, each burn is posted at most once, unless every earlier
    post of it was refused with a 400 (crates/withdrawal-listener-attester/src/submit.rs and idempotency/). */
module LedgerTheorems {
  import opened Basics
  import opened Listener

  /** A post of these burns. `refused` says that Circle answered 400; an answer that was lost, or that a
      crash kept from being recorded, does not. */
  datatype Post = Post(keys: seq<string>, refused: bool)

  /** The ledger, and every post made so far. */
  datatype World = World(rows: Rows, posts: seq<Post>)

  /** What may happen to a ledger: a submission that posts, as the contract of `SubmitWithdraw` says, a claim that a crash keeps from being posted, a
      later move along the status machine, or nothing. Only a submission's own 400 frees a burn. */
  datatype Step =
    | Submit(post: Post)
    | ClaimOnly(keys: seq<string>)
    | Move(key: string, to: RowStatus, id: Option<string>)
    | Nothing

  ghost predicate Takes(w: World, step: Step, w': World) {
    match step
    case Submit(post) => Posts(w.rows, w'.rows, post.keys, post.refused) && w'.posts == w.posts + [post]
    case ClaimOnly(keys) => Posts(w.rows, w'.rows, keys, false) && w'.posts == w.posts
    case Move(key, to, id) =>
      && key in w.rows && CanTransition(w.rows[key].status, to) && to != Failed && to != Pending
      && w' == w.(rows := w.rows[key := Moved(w.rows[key], to, id)])
    case Nothing => w' == w
  }

  ghost predicate Next(w: World, w': World) {
    exists step :: Takes(w, step, w')
  }

  ghost predicate StepAt(run: seq<World>, i: nat) {
    i + 1 < |run| ==> Next(run[i], run[i + 1])
  }

  ghost predicate IsRun(run: seq<World>) {
    |run| > 0 && run[0] == World(map[], []) && forall i :: StepAt(run, i)
  }

  /** Every burn of a post that was not refused is accounted for. */
  ghost predicate Accounted(w: World) {
    forall p, key :: 0 <= p < |w.posts| && key in w.posts[p].keys && !w.posts[p].refused ==>
      key in w.rows && BlocksResubmission(w.rows[key].status)
  }

  ghost predicate OnceUnlessRefused(posts: seq<Post>) {
    forall p, q, key :: 0 <= p < q < |posts| && key in posts[p].keys && key in posts[q].keys ==> posts[p].refused
  }

  /** No step frees a burn that is accounted for. */
  lemma StaysAccounted(w: World, step: Step, w': World, key: string)
    requires Takes(w, step, w') && key in w.rows && BlocksResubmission(w.rows[key].status)
    ensures key in w'.rows && BlocksResubmission(w'.rows[key].status)
    ensures step.Submit? ==> key !in step.post.keys
  {
    match step
    case Submit(post) => NotClaimed(w.rows, w'.rows, post.keys, post.refused, key);
    case ClaimOnly(keys) => NotClaimed(w.rows, w'.rows, keys, false, key);
    case Move(_, _, _) => {}
    case Nothing => {}
  }

  lemma NotClaimed(before: Rows, after: Rows, keys: seq<string>, refused: bool, key: string)
    requires Posts(before, after, keys, refused) && key in before && BlocksResubmission(before[key].status)
    ensures key !in keys && SameRow(before, after, key)
  {
    assert forall i :: 0 <= i < |keys| && keys[i] in before ==> before[keys[i]].status == Failed;
  }

  lemma StepKeeps(w: World, step: Step, w': World)
    requires Takes(w, step, w') && Accounted(w) && OnceUnlessRefused(w.posts)
    ensures Accounted(w') && OnceUnlessRefused(w'.posts)
  {
    forall p, key | 0 <= p < |w.posts| && key in w.posts[p].keys && !w.posts[p].refused
      ensures key in w'.rows && BlocksResubmission(w'.rows[key].status) && (step.Submit? ==> key !in step.post.keys)
    {
      StaysAccounted(w, step, w', key);
    }
  }

  lemma {:induction false} RunKeeps(run: seq<World>, i: nat)
    requires IsRun(run) && i < |run|
    ensures Accounted(run[i]) && OnceUnlessRefused(run[i].posts)
  {
    if i > 0 {
      RunKeeps(run, i - 1);
      assert StepAt(run, i - 1);
      var step :| Takes(run[i - 1], step, run[i]);
      StepKeeps(run[i - 1], step, run[i]);
    }
  }

  /** If a burn was posted twice in a run, Circle refused the first of the two posts with a 400. */
  lemma PostedOnce(run: seq<World>, i: nat, p: nat, q: nat, burn: string, other: string)
    requires IsRun(run) && i < |run| && p < q < |run[i].posts| && Key(burn) == Key(other)
    requires Key(burn) in run[i].posts[p].keys && Key(other) in run[i].posts[q].keys
    ensures run[i].posts[p].refused
  {
    RunKeeps(run, i);
  }
}
