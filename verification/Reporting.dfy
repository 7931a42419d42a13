/** What a status says: the conditions a run may leave, each as what it reads for every kind. */
module Reporting {
  import opened Wrappers
  import opened Conditions

  predicate Says(cs: seq<Condition>, kind: Kind, status: Status, reason: Reason, message: Message, g: int) {
    Find(cs, kind) == Some(Condition(kind, status, reason, message, g))
  }

  /** The conditions of all other kinds read as before. */
  ghost predicate Kept(cs: seq<Condition>, ds: seq<Condition>, kinds: set<Kind>) {
    forall kind | kind !in kinds :: Find(ds, kind) == Find(cs, kind)
  }

  /** Waiting for a dependency: DependencyReady and Ready are False for one reason. */
  ghost predicate Waits(cs: seq<Condition>, ds: seq<Condition>, reason: Reason, message: Message, g: int) {
    && Says(ds, DependencyReady, No, reason, message, g) && Says(ds, Ready, No, reason, message, g)
    && Kept(cs, ds, {DependencyReady, Ready})
  }

  /** One condition and Ready are False for one reason; DependencyReady is not touched. */
  ghost predicate Fails(cs: seq<Condition>, ds: seq<Condition>, kind: Kind, reason: Reason, message: Message,
                        summary: Message, g: int) {
    && Says(ds, kind, No, reason, message, g) && Says(ds, Ready, No, reason, summary, g)
    && Kept(cs, ds, {kind, Ready})
  }

  /** All went well: DependencyReady, Ready and the conditions named are True. */
  ghost predicate Succeeds(cs: seq<Condition>, ds: seq<Condition>, kinds: set<Kind>, g: int) {
    && (forall kind | kind in kinds + {DependencyReady, Ready} :: Says(ds, kind, Yes, Reconciled, NoMessage, g))
    && Kept(cs, ds, kinds + {DependencyReady, Ready})
  }

  lemma WaitsIs(cs: seq<Condition>, g: int, reason: Reason, message: Message)
    ensures Waits(cs, DependencyNotReady(cs, g, reason, message), reason, message, g)
  {
  }

  lemma FailsIs(cs: seq<Condition>, g: int, kind: Kind, reason: Reason, message: Message, summary: Message)
    requires kind != Ready
    ensures Fails(cs, FailWith(cs, g, kind, reason, message, summary), kind, reason, message, summary, g)
  {
  }

  lemma SucceedsIs(cs: seq<Condition>, g: int, kind: Kind)
    requires kind != Ready && kind != DependencyReady
    ensures Succeeds(cs, MarkReady(Upsert(cs, Condition(kind, Yes, Reconciled, NoMessage, g)), g), {kind}, g)
  {
  }

  lemma ReadyAlone(cs: seq<Condition>, g: int)
    ensures Succeeds(cs, MarkReady(cs, g), {}, g)
  {
  }

  /** The condition that counts is the first of its kind. */
  lemma {:induction false} FindIsFirst(cs: seq<Condition>, kind: Kind)
    ensures match Find(cs, kind)
            case None => forall i | 0 <= i < |cs| :: cs[i].kind != kind
            case Some(c) => exists i | 0 <= i < |cs| ::
                              cs[i] == c && c.kind == kind && forall j | 0 <= j < i :: cs[j].kind != kind
  {
    if cs != [] && cs[0].kind != kind {
      FindIsFirst(cs[1..], kind);
      if Find(cs, kind).Some? {
        var i :| 0 <= i < |cs[1..]| && cs[1..][i] == Find(cs, kind).value && Find(cs, kind).value.kind == kind
                 && forall j | 0 <= j < i :: cs[1..][j].kind != kind;
        assert cs[i + 1] == Find(cs, kind).value;
        forall j | 0 <= j < i + 1 ensures cs[j].kind != kind {
          assert j > 0 ==> cs[j] == cs[1..][j - 1];
        }
      }
    }
  }
}
