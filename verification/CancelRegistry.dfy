/** src/dispatcher/cancel.rs: the reviews in flight, at most one live for a pull request.

    A registration's generation is unique, so it also names the registration's token: a token is
    fired when its generation is in `fired`. `held` are the registrations some job still holds. */
module CancelRegistry {
  import opened Options

  datatype Key = Key(owner: string, repo: string, pr: int)

  datatype InFlight = InFlight(head: string, generation: nat)

  datatype Holding = Holding(key: Key, head: string)

  datatype State = State(entries: map<Key, InFlight>, next: nat, fired: set<nat>, held: map<nat, Holding>)

  const EMPTY: State := State(map[], 0, {}, map[])

  /** Registration `g` is held and its token has not fired. */
  predicate Live(s: State, g: nat) {
    g in s.held && g !in s.fired
  }

  /** The entry is for a live review of `head`. */
  predicate Covers(s: State, key: Key, head: string) {
    key in s.entries && s.entries[key].head == head && s.entries[key].generation !in s.fired
  }

  /** Registration `g` is the entry of its pull request: none has come after it, and no close. */
  predicate Current(s: State, g: nat) {
    g in s.held && s.held[g].key in s.entries && s.entries[s.held[g].key].generation == g
  }

  datatype Op =
    | Register(key: Key, head: string)
    | Close(key: Key)
    | Fire(generation: nat)      // the head watcher, or any holder of the token
    | Release(generation: nat)   // `Registered` dropped

  function Without(m: map<Key, InFlight>, key: Key): map<Key, InFlight> {
    map k | k in m && k != key :: m[k]
  }

  function Registered(s: State, key: Key, head: string): State {
    if Covers(s, key, head) then s
    else State(s.entries[key := InFlight(head, s.next)], s.next + 1,
               if key in s.entries then s.fired + {s.entries[key].generation} else s.fired,
               s.held[s.next := Holding(key, head)])
  }

  function Closed(s: State, key: Key): State {
    if key in s.entries then
      s.(entries := Without(s.entries, key), fired := s.fired + {s.entries[key].generation})
    else s
  }

  function Released(s: State, g: nat): State {
    if g !in s.held then s
    else
      var key := s.held[g].key;
      s.(entries := if key in s.entries && s.entries[key].generation == g then Without(s.entries, key) else s.entries,
         held := map h | h in s.held && h != g :: s.held[h])
  }

  function Apply(s: State, op: Op): State {
    match op
    case Register(key, head) => Registered(s, key, head)
    case Close(key) => Closed(s, key)
    case Fire(g) => s.(fired := s.fired + {g})
    case Release(g) => Released(s, g)
  }

  function ApplyAll(s: State, ops: seq<Op>): State {
    if ops == [] then s else Apply(ApplyAll(s, ops[..|ops| - 1]), ops[|ops| - 1])
  }

  /** A live registration is its key's entry, and every entry is somebody's. */
  ghost predicate Consistent(s: State) {
    && (forall g :: Live(s, g) ==> s.held[g].key in s.entries && s.entries[s.held[g].key].generation == g)
    && (forall k :: k in s.entries ==>
          s.entries[k].generation in s.held && s.held[s.entries[k].generation] == Holding(k, s.entries[k].head))
    && (forall g :: g in s.held || g in s.fired ==> g < s.next)
  }

  /** No one fires a token that has not been made. */
  predicate Possible(s: State, op: Op) {
    op.Fire? ==> op.generation < s.next
  }

  lemma ApplyKeepsConsistent(s: State, op: Op)
    requires Consistent(s) && Possible(s, op)
    ensures Consistent(Apply(s, op)) && s.next <= Apply(s, op).next
  {
  }

  ghost predicate AllPossible(s: State, ops: seq<Op>) {
    ops == [] || (AllPossible(s, ops[..|ops| - 1]) && Possible(ApplyAll(s, ops[..|ops| - 1]), ops[|ops| - 1]))
  }

  lemma {:induction false} AlwaysConsistent(s: State, ops: seq<Op>)
    requires Consistent(s) && AllPossible(s, ops)
    ensures Consistent(ApplyAll(s, ops))
  {
    if ops != [] {
      AlwaysConsistent(s, ops[..|ops| - 1]);
      ApplyKeepsConsistent(ApplyAll(s, ops[..|ops| - 1]), ops[|ops| - 1]);
    }
  }

  /** Whatever registers, closes, fires and drops have come before, a pull request has at most one
      live review, and it is the entry; an entry whose token is silent is live. */
  lemma OneLiveReview(ops: seq<Op>, g: nat, h: nat)
    requires AllPossible(EMPTY, ops)
    requires Live(ApplyAll(EMPTY, ops), g)
    ensures var s := ApplyAll(EMPTY, ops);
      && s.held[g].key in s.entries
      && s.entries[s.held[g].key] == InFlight(s.held[g].head, g)
      && (Live(s, h) && s.held[h].key == s.held[g].key ==> g == h)
  {
    AlwaysConsistent(EMPTY, ops);
  }

  /** A registration is refused exactly when a live review of that head is in flight; otherwise it
      is the pull request's one live review, and any other has been told to stop. */
  lemma RefusedOnlyIfCovered(ops: seq<Op>, key: Key, head: string)
    requires AllPossible(EMPTY, ops)
    ensures var s := ApplyAll(EMPTY, ops);
      var s' := Apply(s, Register(key, head));
      && (s' == s <==> exists g :: Live(s, g) && s.held[g] == Holding(key, head))
      && (s' != s ==>
            && Live(s', s.next) && s'.held[s.next] == Holding(key, head)
            && forall g :: g in s.held && s.held[g].key == key ==> g in s'.fired)
  {
    AlwaysConsistent(EMPTY, ops);
    var s := ApplyAll(EMPTY, ops);
    if Covers(s, key, head) {
      assert Live(s, s.entries[key].generation);
    }
  }

  /** Only its own end, or being told to, takes a live review off the registry. */
  lemma LiveUntil(s: State, op: Op, g: nat)
    requires Consistent(s) && Possible(s, op) && Live(s, g)
    ensures Live(Apply(s, op), g) <==>
      match op
      case Register(key, head) => key != s.held[g].key || head == s.held[g].head
      case Close(key) => key != s.held[g].key
      case Fire(h) => h != g
      case Release(h) => h != g
  {
  }

  // ---- the registry itself ----

  class Registry {
    var entries: map<Key, InFlight>
    var nextGeneration: nat
    var fired: set<nat>
    /** What `Registered` values exist. */
    ghost var held: map<nat, Holding>

    ghost function Now(): State
      reads this
    {
      State(entries, nextGeneration, fired, held)
    }

    constructor ()
      ensures Now() == EMPTY
    {
      entries, nextGeneration, fired, held := map[], 0, {}, map[];
    }

    method Register(key: Key, head: string) returns (g: Option<nat>)
      requires Consistent(Now())
      modifies this
      ensures Consistent(Now()) && Now() == Apply(old(Now()), Op.Register(key, head))
      ensures g == if Covers(old(Now()), key, head) then None else Some(old(nextGeneration))
    {
      ApplyKeepsConsistent(Now(), Op.Register(key, head));
      if key in entries && entries[key].head == head && entries[key].generation !in fired {
        return None;
      }
      var generation := nextGeneration;
      nextGeneration := nextGeneration + 1;
      if key in entries {
        fired := fired + {entries[key].generation};
      }
      entries := entries[key := InFlight(head, generation)];
      held := held[generation := Holding(key, head)];
      g := Some(generation);
    }

    /** The pull request was closed. */
    method Cancel(key: Key) returns (any: bool)
      requires Consistent(Now())
      modifies this
      ensures Consistent(Now()) && Now() == Apply(old(Now()), Close(key))
      ensures any <==> key in old(entries)
    {
      ApplyKeepsConsistent(Now(), Close(key));
      any := key in entries;
      if any {
        var generation := entries[key].generation;
        entries, fired := Without(entries, key), fired + {generation};
      }
    }

    /** A push delivery: the review in flight is asked to look at its head again. It is asked exactly if
        some registration for the pull request is of another head and is not superseded or closed. */
    method PushArrived(key: Key, head: string) returns (asked: bool)
      requires Consistent(Now())
      ensures asked <==>
        exists g :: g in held && held[g].key == key && held[g].head != head && Current(Now(), g)
    {
      asked := key in entries && entries[key].head != head;
      assert key in entries ==> Current(Now(), entries[key].generation);
    }

    /** The watcher of a registration cancels it itself; the entry stays until it is dropped. */
    method FireToken(g: nat)
      requires Consistent(Now()) && g < nextGeneration
      modifies this`fired
      ensures Consistent(Now()) && Now() == Apply(old(Now()), Fire(g))
    {
      ApplyKeepsConsistent(Now(), Fire(g));
      fired := fired + {g};
    }

    /** `Registered::drop`, for the registration of generation `g` for `key`. */
    method Drop(g: nat, key: Key)
      requires Consistent(Now()) && g in held && held[g].key == key
      modifies this
      ensures Consistent(Now()) && Now() == Apply(old(Now()), Release(g))
    {
      ApplyKeepsConsistent(Now(), Release(g));
      if key in entries && entries[key].generation == g {
        entries := Without(entries, key);
      }
      held := map h | h in held && h != g :: held[h];
    }
  }
}
