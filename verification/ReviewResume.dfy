/** The multi-identity review of src/checker/multi_review/mod.rs as a job that can be stopped at any
    await and run again from the progress saved on its row.

    One `Env` is what one run meets: how each of its awaits ends. `ReviewJob` is what outlives a
    run: the job row's progress, the reviews GitHub holds for the head, and the head's run record.
    Its ghost fields count what goes wrong. */
module ReviewResume {
  import opened Options

  datatype Identity = Barry | OtherBarry | OtherOtherBarry

  /** A count for each identity. */
  datatype Tally = Tally(barry: nat, other: nat, oob: nat) {
    function Of(id: Identity): nat {
      match id
      case Barry => barry
      case OtherBarry => other
      case OtherOtherBarry => oob
    }

    /** One more for each of `ids`. */
    function Plus(ids: set<Identity>): (t: Tally)
      ensures forall id :: t.Of(id) == Of(id) + (if id in ids then 1 else 0)
    {
      Tally(barry + (if Barry in ids then 1 else 0), other + (if OtherBarry in ids then 1 else 0),
            oob + (if OtherOtherBarry in ids then 1 else 0))
    }
  }

  const NONE := Tally(0, 0, 0)

  datatype CheckOutcome = Approve | Comment | RequestChanges

  datatype Review = Review(outcome: CheckOutcome, summary: string)

  datatype Verdict =
    | Agree(barry: Review)
    | Disagree(barry: Review, other: Review, reason: string)
    | BarryAlone(barry: Review, reason: string)

  function VerdictOutcome(v: Verdict): CheckOutcome {
    if v.Disagree? then Comment else v.barry.outcome
  }

  datatype Progress = Progress(head: string, verdict: Verdict, posted: seq<Identity>, tieBreak: Option<Review>)

  /** Whether `p` says that `id`'s review is posted. The tie-break's is on record as `tieBreak`. */
  predicate Marks(p: Progress, id: Identity) {
    if id == OtherOtherBarry then p.tieBreak.Some? else id in p.posted
  }

  /** The shape every record has: Other Barry only after Barry and only for a disagreement, the
      tie-break only after both, and nobody twice. */
  ghost predicate WellFormed(p: Progress) {
    && OtherOtherBarry !in p.posted
    && (forall i, j :: 0 <= i < j < |p.posted| ==> p.posted[i] != p.posted[j])
    && (OtherBarry in p.posted ==> Barry in p.posted && p.verdict.Disagree?)
    && (p.tieBreak.Some? ==> p.verdict.Disagree? && Barry in p.posted && OtherBarry in p.posted)
  }

  /** How one await ends. A call that fails, or whose future is dropped, may have taken effect. */
  datatype Reply = Done | Fails(landed: bool) | NotInstalled | Dropped(landed: bool) {
    predicate TakesEffect() { Done? || ((Fails? || Dropped?) && landed) }
  }

  /** What Other Other Barry's review phase gives, head check and deadlines included. */
  datatype TieReview = Stands | Trouble | Reviewed(review: Review) | TieDropped

  datatype Env = Env(
    load: Reply, review: Reply, verdict: Verdict, firstSave: Reply,
    barryPost: Reply, barrySave: Reply, otherPost: Reply, otherSave: Reply, downgradeSave: Reply,
    barryRecord: Reply, otherRecord: Reply,
    tie: TieReview, tiePost: Reply, tieSave: Reply, tieRecord: Reply)

  predicate RecordsKept(env: Env) {
    env.barryRecord.Done? && env.otherRecord.Done? && env.tieRecord.Done?
  }

  /** A post whose reply tells the truth, and a save that lands, told of or not. */
  predicate Clean(post: Reply, save: Reply) {
    (post.Done? || !post.TakesEffect()) && save.TakesEffect()
  }

  predicate CleanRun(env: Env) {
    && env.firstSave.TakesEffect() && env.downgradeSave.TakesEffect()
    && Clean(env.barryPost, env.barrySave) && Clean(env.otherPost, env.otherSave) && Clean(env.tiePost, env.tieSave)
  }

  /** The post of `id`'s review, in a run that makes it. */
  function PostOf(env: Env, id: Identity): Reply {
    match id
    case Barry => env.barryPost
    case OtherBarry => env.otherPost
    case OtherOtherBarry => env.tiePost
  }

  /** The record cannot be read, if there is one; a run dropped while reading it posts nothing. */
  predicate Unreadable(env: Env) {
    env.load.Fails? || env.load.NotInstalled?
  }

  predicate TrueRun(env: Env) {
    CleanRun(env) && !Unreadable(env)
  }

  /** Nothing stops the run, and what it cannot do without is done: the review, unless it resumes one,
      and the posts, though Other Barry may be gone. */
  predicate Goes(env: Env, resumed: bool) {
    && !env.load.Dropped? && (resumed || (env.review.Done? && !env.firstSave.Dropped?))
    && env.barryPost.Done? && !env.barrySave.Dropped?
    && (env.otherPost.Done? || env.otherPost.NotInstalled?) && !env.otherSave.Dropped? && !env.downgradeSave.Dropped?
    && !env.barryRecord.Dropped? && !env.otherRecord.Dropped?
    && !env.tie.TieDropped? && !env.tiePost.Dropped? && !env.tieSave.Dropped? && !env.tieRecord.Dropped?
  }

  /** From `was` the run comes to find that Other Barry is gone. */
  predicate Downgrades(env: Env, was: Progress) {
    && was.verdict.Disagree? && OtherBarry !in was.posted && env.otherPost.NotInstalled?
    && (Barry in was.posted || (env.barryPost.Done? && !env.barrySave.Dropped?))
  }

  /** From `was`, the run saves its progress at or after its confirmed post of `id`'s review. */
  predicate SavedSince(env: Env, was: Progress, sent: set<Identity>, id: Identity) {
    match id
    case Barry =>
      || env.barrySave.TakesEffect()
      || (Downgrades(env, was) && env.downgradeSave.TakesEffect())
      || (OtherBarry in sent && env.otherPost.Done? && env.otherSave.TakesEffect())
      || (OtherOtherBarry in sent && env.tiePost.Done? && env.tieSave.TakesEffect())
    case OtherBarry =>
      || env.otherSave.TakesEffect()
      || (OtherOtherBarry in sent && env.tiePost.Done? && env.tieSave.TakesEffect())
    case OtherOtherBarry => env.tieSave.TakesEffect()
  }

  /** One run of a job: what it met, the record it found, whose reviews it put on GitHub, and the
      record it left. */
  datatype Ran = Ran(head: string, env: Env, found: Option<Progress>, sent: set<Identity>, left: Option<Progress>) {
    predicate Resumed() { env.load.Done? && found.Some? }
    function Was(): Progress { if Resumed() then found.value else Progress(head, env.verdict, [], None) }
    predicate Off(id: Identity) { id in sent && !(left.Some? && Marks(left.value, id)) }
    predicate Unread() { Unreadable(env) && found.Some? }
  }

  /** What a run can have done: it posts only what lands, nothing that it reads to be posted, and
      leaves a post off the record only if it was not told of it, or no save since has landed. */
  ghost predicate Possible(run: Ran) {
    && (forall id :: id in run.sent ==> PostOf(run.env, id).TakesEffect() && !Marks(run.Was(), id))
    && (forall id :: run.Off(id) ==>
        !PostOf(run.env, id).Done? || !SavedSince(run.env, run.Was(), run.sent, id))
  }

  /** Each run finds the record that the one before left. */
  predicate Chained(log: seq<Ran>, first: Option<Progress>, last: Option<Progress>) {
    if log == [] then first == last
    else
      var end := |log| - 1;
      Chained(log[..end], first, log[end].found) && log[end].left == last
  }

  function TimesSent(log: seq<Ran>, id: Identity): nat {
    if log == [] then 0 else TimesSent(log[..|log| - 1], id) + if id in log[|log| - 1].sent then 1 else 0
  }

  function TimesOff(log: seq<Ran>, id: Identity): nat {
    if log == [] then 0 else TimesOff(log[..|log| - 1], id) + if log[|log| - 1].Off(id) then 1 else 0
  }

  function TimesUnread(log: seq<Ran>): nat {
    if log == [] then 0 else TimesUnread(log[..|log| - 1]) + if log[|log| - 1].Unread() then 1 else 0
  }

  lemma LogGrows(log: seq<Ran>, ran: Ran, first: Option<Progress>)
    ensures forall id :: TimesSent(log + [ran], id) == TimesSent(log, id) + (if id in ran.sent then 1 else 0)
    ensures forall id :: TimesOff(log + [ran], id) == TimesOff(log, id) + (if ran.Off(id) then 1 else 0)
    ensures TimesUnread(log + [ran]) == TimesUnread(log) + (if ran.Unread() then 1 else 0)
    ensures Chained(log, first, ran.found) ==> Chained(log + [ran], first, ran.left)
  {
    assert (log + [ran])[..|log|] == log;
  }

  lemma {:induction false} NothingLostInCleanRuns(log: seq<Ran>, id: Identity)
    requires forall i :: 0 <= i < |log| ==> Possible(log[i]) && TrueRun(log[i].env)
    ensures TimesOff(log, id) == 0 && TimesUnread(log) == 0
    decreases |log|
  {
    if log != [] {
      NothingLostInCleanRuns(log[..|log| - 1], id);
    }
  }

  predicate Downgraded(was: Verdict, now: Verdict) {
    was.Disagree? && now == BarryAlone(was.barry, "Other Barry uninstalled mid-run")
  }

  datatype Flow = Go | Away(end: End)
  datatype End = Finished(outcome: CheckOutcome) | Failed | Stopped

  datatype PostFlow = Posted | Uninstalled | PostAway(end: End)

  class ReviewJob {
    const head: string
    const tieBreakOn: bool
    var row: Option<Progress>
    var posts: Tally
    var recorded: set<Identity>
    /** The reviews on GitHub when the latest run began, and those it has put there. */
    ghost var before: Tally
    ghost var sent: set<Identity>
    /** Runs that ended with a review of theirs on GitHub and not on the saved record, by identity. */
    ghost var exposed: Tally
    /** Runs that could not read the record they were left. */
    ghost var unread: nat

    /** A job's row may hold the progress of another head's review. */
    constructor (head: string, tieBreakOn: bool, left: Option<Progress>)
      requires left.Some? ==> left.value.head != head
      ensures Valid() && this.head == head && this.tieBreakOn == tieBreakOn
      ensures row == left && posts == NONE && exposed == NONE && unread == 0
    {
      this.head, this.tieBreakOn := head, tieBreakOn;
      row, posts, recorded := left, NONE, {};
      before, sent, exposed, unread := NONE, {}, NONE, 0;
    }

    /** The record a run would resume from. */
    function Saved(): Option<Progress>
      reads `row
    {
      if row.Some? && row.value.head == head then row else None
    }

    predicate OnRecord(id: Identity)
      reads `row
    {
      Saved().Some? && Marks(Saved().value, id)
    }

    /** Everything the run has sent is on the saved record. */
    ghost predicate AllSaved()
      reads `row, `sent
    {
      forall id :: id in sent ==> OnRecord(id)
    }

    /** `p` is of this head, and marks only reviews GitHub holds. */
    ghost predicate Truthful(p: Progress)
      reads `posts
    {
      WellFormed(p) && p.head == head && forall id :: Marks(p, id) ==> posts.Of(id) > 0
    }

    ghost predicate RecordTruthful()
      reads `row, `posts
    {
      Saved().Some? ==> Truthful(Saved().value)
    }

    /** Between runs: the record is truthful, and accounts for every post of an identity but one
        for each exposed or unreadable run. */
    ghost predicate Valid()
      reads `row, `posts, `exposed, `unread
    {
      && RecordTruthful()
      && forall id :: posts.Of(id) <= exposed.Of(id) + unread + (if OnRecord(id) then 1 else 0)
    }

    /** The latest run sends each identity's review at most once. */
    ghost predicate SentOnce()
      reads `posts, `before, `sent
    {
      forall id :: posts.Of(id) == before.Of(id) + (if id in sent then 1 else 0)
    }

    /** A run may end here. */
    ghost predicate Ending()
      reads `row, `posts, `before, `sent, `exposed, `unread
    {
      && RecordTruthful() && SentOnce()
      && forall id :: before.Of(id) <= exposed.Of(id) + unread + (if OnRecord(id) && id !in sent then 1 else 0)
    }

    /** A run has come to `p`: it marks what the run sent, and all it marks besides is on record. */
    ghost predicate Running(p: Progress)
      reads `row, `posts, `before, `sent, `exposed, `unread
    {
      && Truthful(p) && RecordTruthful() && SentOnce()
      && forall id ::
        && (id in sent ==> Marks(p, id))
        && (Marks(p, id) ==> OnRecord(id) || id in sent)
        && before.Of(id) <= exposed.Of(id) + unread + (if Marks(p, id) && id !in sent then 1 else 0)
    }

    /** The saved record is how far the run has come. */
    ghost predicate InStep(p: Progress)
      reads `row, `posts, `before, `sent, `exposed, `unread
    {
      Running(p) && row == Some(p)
    }

    /** The bookkeeping at the end of a run. */
    ghost method Close()
      requires Ending()
      modifies `exposed
      ensures Valid()
      ensures forall id :: exposed.Of(id) == old(exposed.Of(id)) + (if id in sent && !OnRecord(id) then 1 else 0)
    {
      var ends := set id | id in sent && !OnRecord(id);
      exposed := exposed.Plus(ends);
    }

    method SaveProgress(p: Progress, save: Reply) returns (flow: Flow)
      requires Running(p)
      modifies `row
      ensures Running(p) && row == if save.TakesEffect() then Some(p) else old(row)
      ensures flow == if save.Dropped? then Away(Stopped) else Go
    {
      if save.TakesEffect() {
        row := Some(p);
      }
      flow := if save.Dropped? then Away(Stopped) else Go;
    }

    /** `q` marks what `p` marks, and `id`. */
    ghost predicate Extends(p: Progress, q: Progress, id: Identity) {
      WellFormed(q) && q.head == head && forall x :: Marks(q, x) <==> Marks(p, x) || x == id
    }

    /** `post_review`: one review sent to GitHub. `q` is what the run records if it is told of success. */
    method Send(ghost p: Progress, ghost q: Progress, id: Identity, post: Reply)
      requires Running(p) && !Marks(p, id) && Extends(p, q, id)
      modifies `posts, `sent
      ensures sent == old(sent) + (if post.TakesEffect() then {id} else {})
      ensures Ending() && Truthful(p)
      ensures if post.TakesEffect() then Running(q) else Running(p)
    {
      if post.TakesEffect() {
        posts, sent := posts.Plus({id}), sent + {id};
      }
    }

    /** Post `id`'s review unless the record says it is posted, and record that it is. */
    method PostOnce(p: Progress, id: Identity, post: Reply, save: Reply) returns (p': Progress, flow: PostFlow)
      requires Running(p) && id != OtherOtherBarry
      requires id == OtherBarry ==> Barry in p.posted && p.verdict.Disagree?
      modifies `row, `posts, `sent
      ensures Ending() && p' == p.(posted := p'.posted)
      ensures match flow
              case PostAway(end) => !end.Finished?
              case Posted => Running(p') && p'.posted == if id in p.posted then p.posted else p.posted + [id]
              case Uninstalled => Running(p') && p' == p && post.NotInstalled? && id !in p.posted
      ensures sent == old(sent) + (if id !in p.posted && post.TakesEffect() then {id} else {})
      ensures forall x :: x in old(sent) && old(OnRecord(x)) ==> OnRecord(x)
      ensures id !in p.posted && post.Done? && save.TakesEffect() ==> AllSaved()
      ensures (id in p.posted || post.Done?) && !save.Dropped? ==> flow.Posted?
      ensures id !in p.posted && post.NotInstalled? ==> flow.Uninstalled?
      ensures flow.Posted? ==> id in p.posted || (post.Done? && !save.Dropped?)
      ensures old(InStep(p)) && Clean(post, save) ==> InStep(p')
    {
      p' := p;
      if id in p.posted {
        return p, Posted;
      }
      var q := p.(posted := p.posted + [id]);
      assert Extends(p, q, id);
      Send(p, q, id, post);
      match post {
        case NotInstalled => flow := Uninstalled;
        case Fails(_) => flow := PostAway(Failed);
        case Dropped(_) => flow := PostAway(Stopped);
        case Done =>
          p' := q;
          var saved := SaveProgress(p', save);
          flow := if saved.Away? then PostAway(saved.end) else Posted;
      }
    }

    /** A review from the start, and its verdict put on record. */
    method Afresh(env: Env) returns (p: Progress, flow: Flow)
      requires RecordTruthful() && SentOnce() && sent == {}
      requires forall id :: before.Of(id) <= exposed.Of(id) + unread
      modifies `row
      ensures Ending() && p == Progress(head, env.verdict, [], None)
      ensures if flow.Go? then Running(p) && (env.firstSave.TakesEffect() ==> InStep(p)) else !flow.end.Finished?
      ensures env.review.Done? && !env.firstSave.Dropped? ==> flow.Go?
    {
      p := Progress(head, env.verdict, [], None);
      match env.review {
        case Dropped(_) => flow := Away(Stopped);
        case Fails(_) => flow := Away(Failed);
        case NotInstalled => flow := Away(Failed);
        case Done => flow := SaveProgress(p, env.firstSave);
      }
    }

    /** Take up the saved progress, or review afresh. */
    method Begin(env: Env) returns (p: Progress, flow: Flow)
      requires Valid()
      modifies `row, `before, `sent, `unread
      ensures sent == {} && before == posts && Ending()
      ensures if flow.Go? then Running(p) && (env.firstSave.TakesEffect() ==> InStep(p)) else !flow.end.Finished?
      ensures unread == old(unread) + (if Unreadable(env) && old(Saved()).Some? then 1 else 0)
      // It is resumed exactly if there is a record, of this very head, and it can be read.
      ensures if env.load.Done? && old(row).Some? && old(row).value.head == head
              then flow == Go && row == old(row) && p == old(row).value
              else p == Progress(head, env.verdict, [], None)
      ensures !env.load.Dropped? && env.review.Done? && !env.firstSave.Dropped? ==> flow.Go?
    {
      before, sent := posts, {};
      if env.load.Dropped? {
        return Progress(head, env.verdict, [], None), Away(Stopped);
      }
      if Saved().Some? {
        if env.load.Done? {
          return Saved().value, Go;
        }
        unread := unread + 1;
      }
      p, flow := Afresh(env);
    }

    /** Other Barry's part of a disagreement: his post, or the downgrade when he is gone. */
    method PostOther(p: Progress, env: Env) returns (p': Progress, flow: Flow)
      requires Running(p) && p.verdict.Disagree? && Barry in p.posted
      modifies `row, `posts, `sent
      ensures Ending() && p' == p.(posted := p'.posted, verdict := p'.verdict)
      ensures if flow.Go? then Running(p') && Barry in p'.posted && (p'.verdict.Disagree? ==> OtherBarry in p'.posted)
              else !flow.end.Finished?
      ensures p'.verdict == p.verdict || (Downgraded(p.verdict, p'.verdict) && env.otherPost.NotInstalled?)
      ensures sent == old(sent) + (if OtherBarry !in p.posted && env.otherPost.TakesEffect() then {OtherBarry} else {})
      ensures forall x :: x in old(sent) && old(OnRecord(x)) ==> OnRecord(x)
      ensures OtherBarry !in p.posted && env.otherPost.Done? && env.otherSave.TakesEffect() ==> AllSaved()
      ensures OtherBarry !in p.posted && env.otherPost.NotInstalled? && env.downgradeSave.TakesEffect() ==> AllSaved()
      ensures env.otherPost.Done? || env.otherPost.NotInstalled? ==>
        env.otherSave.Dropped? || env.downgradeSave.Dropped? || flow.Go?
      ensures old(InStep(p)) && CleanRun(env) ==> InStep(p')
    {
      var post;
      p', post := PostOnce(p, OtherBarry, env.otherPost, env.otherSave);
      match post {
        case PostAway(end) => flow := Away(end);
        case Posted => flow := Go;
        case Uninstalled =>
          p' := p.(verdict := BarryAlone(p.verdict.barry, "Other Barry uninstalled mid-run"));
          flow := SaveProgress(p', env.downgradeSave);
      }
    }

    /** Post under each Barry that has something to say. */
    method PostReviews(p: Progress, env: Env) returns (p': Progress, flow: Flow)
      requires Running(p) && sent == {}
      modifies `row, `posts, `sent
      ensures Ending() && p' == p.(posted := p'.posted, verdict := p'.verdict)
      ensures if flow.Go? then Running(p') && Barry in p'.posted && (p'.verdict.Disagree? ==> OtherBarry in p'.posted)
              else !flow.end.Finished?
      ensures p'.verdict == p.verdict || (Downgraded(p.verdict, p'.verdict) && env.otherPost.NotInstalled?)
      ensures forall id :: id in sent ==> id != OtherOtherBarry && !Marks(p, id) && PostOf(env, id).TakesEffect()
      ensures Barry in sent && env.barryPost.Done? && env.barrySave.TakesEffect() ==> OnRecord(Barry)
      ensures OtherBarry in sent && env.otherPost.Done? && env.otherSave.TakesEffect() ==> AllSaved()
      ensures Downgrades(env, p) && env.downgradeSave.TakesEffect() ==> AllSaved()
      ensures Goes(env, true) ==> flow.Go?
      ensures old(InStep(p)) && CleanRun(env) ==> InStep(p')
    {
      var post;
      p', post := PostOnce(p, Barry, env.barryPost, env.barrySave);
      match post {
        case PostAway(end) => flow := Away(end);
        case Uninstalled => flow := Away(Failed);
        case Posted =>
          flow := Go;
          if p.verdict.Disagree? {
            p', flow := PostOther(p', env);
          }
      }
    }

    /** `record_post`: the head's run record. A failure is let pass. */
    method Record(id: Identity, reply: Reply) returns (flow: Flow)
      modifies `recorded
      ensures recorded == old(recorded) + (if reply.TakesEffect() then {id} else {})
      ensures flow == if reply.Dropped? then Away(Stopped) else Go
    {
      if reply.TakesEffect() {
        recorded := recorded + {id};
      }
      flow := if reply.Dropped? then Away(Stopped) else Go;
    }

    /** The head's run record names everyone `p`'s verdict had post. */
    predicate OnHeadRecord(p: Progress)
      reads `recorded
    {
      && Barry in recorded
      && (p.verdict.Disagree? ==> OtherBarry in recorded)
      && (p.tieBreak.Some? ==> OtherOtherBarry in recorded)
    }

    /** Other Other Barry's review of the disagreement, posted and put on record. */
    method BreakTie(p: Progress, env: Env) returns (p': Progress, flow: Flow)
      requires Running(p) && p.tieBreak.None?
      requires p.verdict.Disagree? && Barry in p.posted && OtherBarry in p.posted
      modifies `row, `posts, `sent, `recorded
      ensures Ending() && Truthful(p') && (flow.Away? ==> !flow.end.Finished?)
      ensures p' == p.(tieBreak := p'.tieBreak)
      ensures flow.Go? ==> p'.tieBreak == if env.tie.Reviewed? && env.tiePost.Done? then Some(env.tie.review) else None
      ensures flow.Go? && p'.tieBreak.Some? && env.tieRecord.Done? ==> OtherOtherBarry in recorded
      // It stops exactly where it is dropped, and is recorded exactly if it comes to that.
      ensures flow.Away? <==>
        || env.tie.TieDropped?
        || (env.tie.Reviewed? && env.tiePost.Dropped?)
        || (env.tie.Reviewed? && env.tiePost.Done? && (env.tieSave.Dropped? || env.tieRecord.Dropped?))
      ensures recorded == old(recorded) +
        if env.tie.Reviewed? && env.tiePost.Done? && !env.tieSave.Dropped? && env.tieRecord.TakesEffect()
        then {OtherOtherBarry} else {}
      ensures sent == old(sent) + (if env.tie.Reviewed? && env.tiePost.TakesEffect() then {OtherOtherBarry} else {})
      ensures forall x :: x in old(sent) && old(OnRecord(x)) ==> OnRecord(x)
      ensures env.tie.Reviewed? && env.tiePost.Done? && env.tieSave.TakesEffect() ==> AllSaved()
      ensures Goes(env, true) ==> flow.Go?
      ensures old(InStep(p)) && CleanRun(env) ==> InStep(p')
    {
      p', flow := p, Go;
      match env.tie {
        case Stands =>
        case Trouble =>
        case TieDropped => flow := Away(Stopped);
        case Reviewed(review) =>
          var q := p.(tieBreak := Some(review));
          assert Extends(p, q, OtherOtherBarry);
          Send(p, q, OtherOtherBarry, env.tiePost);
          if env.tiePost.Dropped? {
            flow := Away(Stopped);
          } else if env.tiePost.Done? {
            p' := q;
            flow := SaveProgress(p', env.tieSave);
            if flow.Go? {
              flow := Record(OtherOtherBarry, env.tieRecord);
            }
          }
      }
    }

    /** What the check run shows for `p`: the tie-break's outcome, or the verdict's. */
    static function Shown(p: Progress): CheckOutcome {
      if p.tieBreak.Some? then p.tieBreak.value.outcome else VerdictOutcome(p.verdict)
    }

    /** The tie-break that a run makes for `p`, if it makes one. */
    function MadeNow(p: Progress, env: Env): Option<Review> {
      if p.verdict.Disagree? && tieBreakOn && env.tie.Reviewed? && env.tiePost.Done? then Some(env.tie.review) else None
    }

    /** The end of a disagreement: the tie-break on record, one made now, or none. */
    method ResolveTie(p: Progress, env: Env) returns (p': Progress, flow: Flow)
      requires Running(p) && p.verdict.Disagree? && Barry in p.posted && OtherBarry in p.posted
      modifies `row, `posts, `sent, `recorded
      ensures Ending() && Truthful(p') && (flow.Away? ==> !flow.end.Finished?)
      ensures p' == p.(tieBreak := p'.tieBreak) && (p.tieBreak.Some? ==> p' == p)
      ensures flow.Go? && p.tieBreak.None? ==>
        p'.tieBreak == if tieBreakOn && env.tie.Reviewed? && env.tiePost.Done? then Some(env.tie.review) else None
      ensures flow.Go? && env.tieRecord.Done? && p'.tieBreak.Some? ==> OtherOtherBarry in recorded
      ensures old(recorded) <= recorded
      ensures forall id :: id in sent ==>
        id in old(sent) || (id == OtherOtherBarry && p.tieBreak.None? && env.tiePost.TakesEffect())
      ensures forall x :: x in old(sent) && old(OnRecord(x)) ==> OnRecord(x)
      ensures OtherOtherBarry in sent && OtherOtherBarry !in old(sent) && env.tiePost.Done? && env.tieSave.TakesEffect()
        ==> AllSaved()
      ensures Goes(env, true) ==> flow.Go?
      ensures old(InStep(p)) && CleanRun(env) ==> InStep(p')
    {
      p', flow := p, Go;
      if p.tieBreak.Some? {
        flow := Record(OtherOtherBarry, env.tieRecord);
      } else if tieBreakOn {
        p', flow := BreakTie(p, env);
      }
    }

    /** The head's record of the reviews that are posted. */
    method RecordReviews(p: Progress, env: Env) returns (flow: Flow)
      modifies `recorded
      ensures var dropped := env.barryRecord.Dropped? || (p.verdict.Disagree? && env.otherRecord.Dropped?);
        flow == if dropped then Away(Stopped) else Go
      ensures recorded == old(recorded) + (if env.barryRecord.TakesEffect() then {Barry} else {}) +
        if !env.barryRecord.Dropped? && p.verdict.Disagree? && env.otherRecord.TakesEffect() then {OtherBarry} else {}
    {
      flow := Record(Barry, env.barryRecord);
      if flow.Go? && p.verdict.Disagree? {
        flow := Record(OtherBarry, env.otherRecord);
      }
    }

    /** The run once its reviews are posted: the head's record, and the tie-break. */
    method Settle(p: Progress, env: Env) returns (p': Progress, end: End)
      requires Running(p) && Barry in p.posted && (p.verdict.Disagree? ==> OtherBarry in p.posted)
      modifies `row, `posts, `sent, `recorded
      ensures Ending() && Truthful(p')
      ensures p' == p.(tieBreak := p'.tieBreak) && (p.tieBreak.Some? ==> p' == p)
      ensures end.Finished? ==> RecordsKept(env) ==> OnHeadRecord(p')
      ensures end.Finished? ==>
        end.outcome == if p'.tieBreak.Some? then p'.tieBreak.value.outcome
        else if p'.verdict.Disagree? then Comment else p'.verdict.barry.outcome
      ensures end.Finished? && p.tieBreak.None? ==> p'.tieBreak == MadeNow(p, env)
      ensures forall id :: id in sent ==>
        id in old(sent) || (id == OtherOtherBarry && p.tieBreak.None? && env.tiePost.TakesEffect())
      ensures forall x :: x in old(sent) && old(OnRecord(x)) ==> OnRecord(x)
      ensures OtherOtherBarry in sent && OtherOtherBarry !in old(sent) && env.tiePost.Done? && env.tieSave.TakesEffect()
        ==> AllSaved()
      ensures Goes(env, true) ==> end.Finished?
      ensures old(InStep(p)) && CleanRun(env) ==> InStep(p')
    {
      p' := p;
      var flow := RecordReviews(p, env);
      if flow.Go? && p.verdict.Disagree? {
        p', flow := ResolveTie(p, env);
      }
      end := if flow.Away? then flow.end else Finished(Shown(p'));
    }

    /** The run from `was`, what it took up or began, on. */
    method Proceed(was: Progress, env: Env) returns (p: Progress, end: End)
      requires Running(was) && sent == {}
      modifies `row, `posts, `recorded, `sent
      ensures Ending()
      ensures forall id :: id in sent ==> !Marks(was, id) && PostOf(env, id).TakesEffect()
      ensures forall id :: id in sent && PostOf(env, id).Done? && SavedSince(env, was, sent, id) ==> OnRecord(id)
      ensures Goes(env, true) ==> end.Finished?
      ensures old(InStep(was)) && CleanRun(env) ==> InStep(p)
      ensures end.Finished? ==>
        && Truthful(p) && Barry in p.posted && (p.verdict.Disagree? ==> OtherBarry in p.posted)
        && (RecordsKept(env) ==> OnHeadRecord(p))
        && (p.verdict == was.verdict || (Downgraded(was.verdict, p.verdict) && env.otherPost.NotInstalled?))
        && p.tieBreak == (if was.tieBreak.Some? then was.tieBreak else MadeNow(p, env))
      ensures end.Finished? ==>
        end.outcome == if p.tieBreak.Some? then p.tieBreak.value.outcome
        else if p.verdict.Disagree? then Comment else p.verdict.barry.outcome
    {
      var flow;
      p, flow := PostReviews(was, env);
      if flow.Go? {
        p, end := Settle(p, env);
      } else {
        end := flow.end;
      }
    }

    /** One run of the checker on the job, from load to its end. `p` is how far it came. */
    method Run(env: Env) returns (p: Progress, end: End)
      requires Valid()
      modifies `row, `posts, `recorded, `before, `sent, `exposed, `unread
      ensures Valid()
      // No run sends a review twice, or at all if it could read that it was posted.
      ensures forall id :: posts.Of(id) == old(posts.Of(id)) + (if id in sent then 1 else 0)
      ensures forall id :: env.load.Done? && old(OnRecord(id)) ==> id !in sent
      ensures forall id :: id in sent ==> PostOf(env, id).TakesEffect()
      // A finished run has posted what its verdict calls for, and shows what it decided.
      ensures end.Finished? ==>
        && Truthful(p) && Barry in p.posted && (p.verdict.Disagree? ==> OtherBarry in p.posted)
        && (RecordsKept(env) ==>
            && Barry in recorded && (p.verdict.Disagree? ==> OtherBarry in recorded)
            && (p.tieBreak.Some? ==> OtherOtherBarry in recorded))
      // The tie-break decides the check, and a disagreement without one is neutral.
      ensures end.Finished? ==>
        end.outcome == if p.tieBreak.Some? then p.tieBreak.value.outcome
        else if p.verdict.Disagree? then Comment else p.verdict.barry.outcome
      // A resumed run keeps a decided tie-break, and the verdict unless Other Barry is gone. Else the tie is
      // broken now, if it is to be and the review of it is posted.
      ensures end.Finished? ==>
        var resumed := env.load.Done? && old(Saved()).Some?;
        var was := if resumed then old(Saved()).value else Progress(head, env.verdict, [], None);
        && (p.verdict == was.verdict || (Downgraded(was.verdict, p.verdict) && env.otherPost.NotInstalled?))
        && p.tieBreak == if was.tieBreak.Some? then was.tieBreak
             else if p.verdict.Disagree? && tieBreakOn && env.tie.Reviewed? && env.tiePost.Done?
             then Some(env.tie.review) else None
      // A run that nothing stops, and that can do what it has to, finishes.
      ensures Goes(env, env.load.Done? && old(Saved()).Some?) ==> end.Finished?
      // However it ends, a post it was told of is on the record if any save since has landed.
      ensures var resumed := env.load.Done? && old(Saved()).Some?;
        var was := if resumed then old(Saved()).value else Progress(head, env.verdict, [], None);
        forall id :: id in sent && PostOf(env, id).Done? && SavedSince(env, was, sent, id) ==> OnRecord(id)
      ensures end.Finished? && CleanRun(env) ==> Saved() == Some(p)
      // What the run adds to the bookkeeping.
      ensures unread == old(unread) + (if Unreadable(env) && old(Saved()).Some? then 1 else 0)
      ensures forall id :: exposed.Of(id) == old(exposed.Of(id)) + (if id in sent && !OnRecord(id) then 1 else 0)
    {
      var flow;
      p, flow := Begin(env);
      if flow.Go? {
        p, end := Proceed(p, env);
      } else {
        end := flow.end;
      }
      Close();
    }

    /** One run, and what it adds to the log. */
    method LoggedRun(env: Env) returns (ghost ran: Ran)
      requires Valid()
      modifies this
      ensures Valid() && Possible(ran)
      ensures ran.head == head && ran.env == env && ran.found == old(Saved()) && ran.left == Saved()
      ensures forall id :: posts.Of(id) == old(posts.Of(id)) + (if id in ran.sent then 1 else 0)
      ensures forall id :: exposed.Of(id) == old(exposed.Of(id)) + (if ran.Off(id) then 1 else 0)
      ensures unread == old(unread) + (if ran.Unread() then 1 else 0)
    {
      ghost var found := Saved();
      var p, end := Run(env);
      ran := Ran(head, env, found, sent, Saved());
    }

    /** The job over any number of runs, with a log of them. Each identity's posts are the runs that
        sent its review: one, and one for each run that left a post of it off the record, or could
        not read the record. */
    method Life(runs: nat, envs: nat -> Env) returns (ghost log: seq<Ran>)
      requires Valid()
      modifies this
      ensures Valid() && RecordTruthful()
      ensures |log| == runs && forall i :: 0 <= i < runs ==> log[i].env == envs(i) && Possible(log[i])
      ensures Chained(log, old(Saved()), Saved())
      ensures forall id :: posts.Of(id) == old(posts.Of(id)) + TimesSent(log, id)
      ensures forall id :: exposed.Of(id) == old(exposed.Of(id)) + TimesOff(log, id)
      ensures unread == old(unread) + TimesUnread(log)
      ensures forall id :: posts.Of(id) <= old(exposed.Of(id)) + TimesOff(log, id) + old(unread) + TimesUnread(log) + 1
    {
      log := [];
      for i := 0 to runs
        invariant Valid() && |log| == i && Chained(log, old(Saved()), Saved())
        invariant forall k :: 0 <= k < i ==> log[k].env == envs(k) && Possible(log[k])
        invariant forall id :: posts.Of(id) == old(posts.Of(id)) + TimesSent(log, id)
        invariant forall id :: exposed.Of(id) == old(exposed.Of(id)) + TimesOff(log, id)
        invariant unread == old(unread) + TimesUnread(log)
      {
        ghost var ran := LoggedRun(envs(i));
        LogGrows(log, ran, old(Saved()));
        log := log + [ran];
      }
    }
  }

  /** A new job, its row empty or another head's, whose runs are stopped wherever they may be, inside a
      post that has not landed or a save that has included, but are told the truth about their posts,
      save what they say they save and read what they saved: each identity posts at most once. */
  method CleanLife(head: string, tieBreakOn: bool, left: Option<Progress>, runs: nat, envs: nat -> Env)
    returns (job: ReviewJob)
    requires left.Some? ==> left.value.head != head
    requires forall i: nat :: i < runs ==> TrueRun(envs(i))
    ensures fresh(job) && job.Valid() && job.head == head && job.tieBreakOn == tieBreakOn
    ensures job.exposed == NONE && job.unread == 0 && forall id :: job.posts.Of(id) <= 1
  {
    job := new ReviewJob(head, tieBreakOn, left);
    ghost var log := job.Life(runs, envs);
    forall id ensures job.exposed.Of(id) == 0 && job.unread == 0 && job.posts.Of(id) <= 1 {
      NothingLostInCleanRuns(log, id);
    }
    assert job.exposed.Of(Barry) == job.exposed.Of(OtherBarry) == job.exposed.Of(OtherOtherBarry) == 0;
  }

  /** After any such runs, one more that nothing stops finishes, and each identity that its verdict calls
      for has posted exactly once: Barry, Other Barry if they disagree, and Other Other Barry if he
      decided. The others have not. */
  method ExactlyOnce(head: string, tieBreakOn: bool, left: Option<Progress>, runs: nat, envs: nat -> Env, last: Env)
    returns (job: ReviewJob, p: Progress, end: End)
    requires left.Some? ==> left.value.head != head
    requires forall i: nat :: i < runs ==> TrueRun(envs(i))
    requires TrueRun(last) && Goes(last, false)
    ensures end == Finished(
      if p.tieBreak.Some? then p.tieBreak.value.outcome
      else if p.verdict.Disagree? then Comment else p.verdict.barry.outcome)
    ensures job.posts.Of(Barry) == 1
    ensures job.posts.Of(OtherBarry) == if p.verdict.Disagree? then 1 else 0
    ensures job.posts.Of(OtherOtherBarry) == if p.tieBreak.Some? then 1 else 0
  {
    job := CleanLife(head, tieBreakOn, left, runs, envs);
    ghost var ran := Ran(head, last, job.Saved(), {}, None);
    p, end := job.Run(last);
    forall id ensures job.exposed.Of(id) == 0 {
      assert id in job.sent ==> SavedSince(last, ran.Was(), job.sent, id);
    }
  }
}
