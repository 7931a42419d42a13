/**
 Status conditions (internal/controller/shared.go:75-116, 159-162). Transition times are not
 modelled; of a message only what it is about is kept, and whether it is empty.
 */
module Conditions {
  import opened Wrappers

  datatype Kind = Ready | OpenBaoReachable | TrustConfigured | IdentityResolved | PolicyResolved | DependencyReady

  datatype Status = Yes | No | Unknown

  datatype Reason =
    | Reconciled | ReconcileError | DependencyNotFound | DependencyMissesReadiness | OpenBaoUnreachable
    | IssuerDiscoveryFailed | ControlPlaneUnavailable | PolicyNotFound | PolicyFound | PolicyCheckSkipped
    | WaitingForPolicy

  datatype Message = NoMessage | About(name: string) | ErrorText(text: string) | Joined(parts: seq<Message>)

  predicate IsEmpty(m: Message) {
    m == NoMessage || m == ErrorText("")
  }

  datatype Condition = Condition(kind: Kind, status: Status, reason: Reason, message: Message, generation: int)

  /** apimeta.FindStatusCondition: the first condition of the kind. */
  function Find(cs: seq<Condition>, kind: Kind): Option<Condition> {
    if cs == [] then None
    else if cs[0].kind == kind then Some(cs[0])
    else Find(cs[1..], kind)
  }

  predicate IsTrue(cs: seq<Condition>, kind: Kind) {
    Find(cs, kind).Some? && Find(cs, kind).value.status == Yes
  }

  /** apimeta.SetStatusCondition: overwrite the first condition of the kind in its place, or append. */
  function Upsert(cs: seq<Condition>, c: Condition): (r: seq<Condition>)
    ensures forall k :: Find(r, k) == if k == c.kind then Some(c) else Find(cs, k)
    ensures Find(cs, c.kind) == Some(c) ==> r == cs
  {
    if cs == [] then [c]
    else if cs[0].kind == c.kind then [c] + cs[1..]
    else
      var rest := Upsert(cs[1..], c);
      var r := [cs[0]] + rest;
      assert r[1..] == rest && cs == [cs[0]] + cs[1..];
      r
  }

  ghost predicate OnePerKind(cs: seq<Condition>) {
    forall i, j | 0 <= i < j < |cs| :: cs[i].kind != cs[j].kind
  }

  lemma {:induction false} FindNone(cs: seq<Condition>, kind: Kind, i: nat)
    requires Find(cs, kind) == None && i < |cs|
    ensures cs[i].kind != kind
  {
    if i > 0 {
      FindNone(cs[1..], kind, i - 1);
    }
  }

  /** An upsert keeps the kinds in their places and adds at most one kind that was absent. */
  lemma {:induction false} UpsertKinds(cs: seq<Condition>, c: Condition)
    ensures var r := Upsert(cs, c);
            && |r| == |cs| + (if Find(cs, c.kind) == None then 1 else 0)
            && (forall i | 0 <= i < |cs| :: r[i].kind == cs[i].kind)
            && (Find(cs, c.kind) == None ==> r == cs + [c])
  {
    if cs != [] && cs[0].kind != c.kind {
      UpsertKinds(cs[1..], c);
      assert cs == [cs[0]] + cs[1..];
    }
  }

  lemma UpsertKeepsOnePerKind(cs: seq<Condition>, c: Condition)
    requires OnePerKind(cs)
    ensures OnePerKind(Upsert(cs, c))
  {
    UpsertKinds(cs, c);
    if Find(cs, c.kind) == None {
      forall i | 0 <= i < |cs| ensures cs[i].kind != c.kind {
        FindNone(cs, c.kind, i);
      }
    }
  }

  function DependencyNotReady(cs: seq<Condition>, generation: int, reason: Reason, message: Message): seq<Condition> {
    Upsert(Upsert(cs, Condition(DependencyReady, No, reason, message, generation)),
           Condition(Ready, No, reason, message, generation))
  }

  function MarkReady(cs: seq<Condition>, generation: int): seq<Condition> {
    Upsert(Upsert(cs, Condition(DependencyReady, Yes, Reconciled, NoMessage, generation)),
           Condition(Ready, Yes, Reconciled, NoMessage, generation))
  }

  /** Sets one condition and Ready to the same failure. */
  function FailWith(cs: seq<Condition>, generation: int, kind: Kind, reason: Reason, message: Message, summary: Message)
    : seq<Condition>
  {
    Upsert(Upsert(cs, Condition(kind, No, reason, message, generation)),
           Condition(Ready, No, reason, summary, generation))
  }

  /** The condition list a reconciler mutates through a pointer. */
  class ConditionList {
    var items: seq<Condition>

    constructor (items: seq<Condition>)
      ensures this.items == items
    {
      this.items := items;
    }

    method SetCondition(generation: int, kind: Kind, status: Status, reason: Reason, message: Message)
      modifies this
      ensures items == Upsert(old(items), Condition(kind, status, reason, message, generation))
    {
      items := Upsert(items, Condition(kind, status, reason, message, generation));
    }

    method SetDependencyNotReady(generation: int, reason: Reason, message: Message)
      modifies this
      ensures items == DependencyNotReady(old(items), generation, reason, message)
    {
      SetCondition(generation, DependencyReady, No, reason, message);
      SetCondition(generation, Ready, No, reason, message);
    }

    method SetReady(generation: int)
      modifies this
      ensures items == MarkReady(old(items), generation)
    {
      SetCondition(generation, DependencyReady, Yes, Reconciled, NoMessage);
      SetCondition(generation, Ready, Yes, Reconciled, NoMessage);
    }
  }
}
