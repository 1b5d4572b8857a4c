/** The open-question prompt schedule: a pure function of state, cadence and the present time. */
module PromptModel {
  import opened Data
  import opened Seqs

  const CADENCE_MIN_HOURS: nat := 72
  const CADENCE_MAX_HOURS: nat := 672
  const HOUR_MS: nat := 3_600_000
  const NUDGE_DELAY_MS: nat := 86_400_000
  const QUESTION_NUDGE_THRESHOLD: nat := 8
  const QUESTION_NUDGE_QUIET_MS: nat := 2_419_200_000

  datatype Question = Question(
    status: Option<string>, createdAt: I64, updatedAt: I64, resolvedAt: Option<I64>, checkinAt: Option<I64>)

  datatype State = State(
    accountCreatedAt: I64, questions: seq<Question>, hasEverAnswered: bool,
    promptSkippedAt: Option<I64>, checkinCompletedAt: Option<I64>)

  datatype Kind = Initial | Nudge | CheckIn
  datatype Event = Event(kind: Kind, dueAt: I64)

  function ClampCadence(hours: nat): (r: nat)
    ensures CADENCE_MIN_HOURS <= r <= CADENCE_MAX_HOURS
    ensures CADENCE_MIN_HOURS <= hours <= CADENCE_MAX_HOURS ==> r == hours
  {
    if hours < CADENCE_MIN_HOURS then CADENCE_MIN_HOURS else if hours > CADENCE_MAX_HOURS then CADENCE_MAX_HOURS else hours
  }

  function CadenceMs(hours: nat): nat {
    ClampCadence(hours) * HOUR_MS
  }

  function SaturatingAdd(a: I64, b: nat): I64 {
    if a + b > I64_MAX then I64_MAX else a + b
  }

  function IsActive(): Question -> bool {
    (q: Question) => q.status != Some("resolved") && q.status != Some("dismissed")
  }

  // ── Interactions and anchors ───────────────────────────────────────────────

  /** Something the user did, stamped, and the birth of what it acts on. */
  datatype Interaction = Interaction(stamp: I64, birth: I64)

  /** A stamp from the future counts as the birth; an early one is raised to it. */
  function Bound(x: Interaction, now: I64): I64 {
    if x.stamp > now then x.birth else if x.stamp < x.birth then x.birth else x.stamp
  }

  /** The latest bounded interaction. */
  function Anchor(xs: seq<Interaction>, now: I64): Option<I64> {
    if xs == [] then None
    else
      var front, last := Anchor(xs[..|xs| - 1], now), Bound(xs[|xs| - 1], now);
      if front.Some? && front.value > last then front else Some(last)
  }

  function OldestBirth(qs: seq<Question>): Option<I64> {
    if qs == [] then None
    else
      var front, last := OldestBirth(qs[..|qs| - 1]), qs[|qs| - 1].createdAt;
      if front.Some? && front.value < last then front else Some(last)
  }

  /** The questions' own check-in stamps, against one birth. */
  function Checkins(qs: seq<Question>, birth: I64): seq<Interaction> {
    if qs == [] then []
    else
      var front, q := Checkins(qs[..|qs| - 1], birth), qs[|qs| - 1];
      if q.checkinAt.Some? then front + [Interaction(q.checkinAt.value, birth)] else front
  }

  /** A question's close: its resolution, or its last change when none was recorded. */
  function CloseOf(q: Question): Interaction {
    Interaction(if q.resolvedAt.Some? then q.resolvedAt.value else q.updatedAt, q.createdAt)
  }

  function Closes(qs: seq<Question>): seq<Interaction> {
    if qs == [] then [] else Closes(qs[..|qs| - 1]) + [CloseOf(qs[|qs| - 1])]
  }

  function Stamped(at: Option<I64>, birth: I64): seq<Interaction> {
    if at.Some? then [Interaction(at.value, birth)] else []
  }

  function CheckinInteractions(s: State, birth: I64): seq<Interaction> {
    Stamped(s.checkinCompletedAt, birth) + Checkins(Filter(IsActive(), s.questions), birth)
  }

  function InitialInteractions(s: State): seq<Interaction> {
    Closes(s.questions) + Stamped(s.promptSkippedAt, s.accountCreatedAt)
  }

  /** When the check-in period began; None when no question is active. */
  function CheckinAnchor(s: State, now: I64): Option<I64> {
    match OldestBirth(Filter(IsActive(), s.questions))
    case None => None
    case Some(birth) =>
      match Anchor(CheckinInteractions(s, birth), now)
      case None => Some(birth)
      case Some(a) => Some(a)
  }

  function InitialDue(s: State, cadence: nat, now: I64): I64 {
    match Anchor(InitialInteractions(s), now)
    case Some(a) => SaturatingAdd(a, cadence)
    case None => s.accountCreatedAt
  }

  /** One check-in for all active questions; otherwise the initial prompt, and its nudge while the
      first day lasts and nothing was answered or skipped. Never empty, in order of due time. */
  function NextEvents(s: State, hours: nat, now: I64): (r: seq<Event>)
    ensures 1 <= |r| <= 2 && (|r| == 2 ==> r[0].dueAt <= r[1].dueAt)
    ensures (exists e :: e in r && e.kind == CheckIn) <==> exists q :: q in s.questions && IsActive()(q)
    ensures (exists e :: e in r && e.kind == CheckIn) ==> |r| == 1
    ensures |r| == 2 <==> !(exists q :: q in s.questions && IsActive()(q)) && !s.hasEverAnswered && s.promptSkippedAt.None? &&
                          now < SaturatingAdd(s.accountCreatedAt, NUDGE_DELAY_MS)
    ensures |r| == 2 ==> Event(Nudge, SaturatingAdd(s.accountCreatedAt, NUDGE_DELAY_MS)) in r
    ensures |r| == 1 ==> r[0].kind != Nudge
  {
    var cadence := CadenceMs(hours);
    var anchor := CheckinAnchor(s, now);
    ActiveAnchor(s, now);
    if anchor.Some? then
      var r := [Event(CheckIn, SaturatingAdd(anchor.value, cadence))];
      assert r[0] in r;
      r
    else
      var initial := Event(Initial, InitialDue(s, cadence, now));
      var nudgeAt := SaturatingAdd(s.accountCreatedAt, NUDGE_DELAY_MS);
      if !s.hasEverAnswered && s.promptSkippedAt.None? && now < nudgeAt then
        if initial.dueAt <= nudgeAt then [initial, Event(Nudge, nudgeAt)] else [Event(Nudge, nudgeAt), initial]
      else [initial]
  }

  lemma ActiveAnchor(s: State, now: I64)
    ensures CheckinAnchor(s, now).Some? <==> exists q :: q in s.questions && IsActive()(q)
  {
    var active := Filter(IsActive(), s.questions);
    FilterMembers(IsActive(), s.questions);
    if active != [] {
      assert active[0] in active;
    }
  }

  /** Whether the too-many-questions nudge shows. */
  predicate QuestionNudgeDue(active: nat, dismissedAt: Option<I64>, now: I64) {
    if active <= QUESTION_NUDGE_THRESHOLD then false
    else if dismissedAt.Some? && dismissedAt.value <= now then now >= SaturatingAdd(dismissedAt.value, QUESTION_NUDGE_QUIET_MS)
    else true
  }

  // ── The anchor, told without recursion ─────────────────────────────────────

  ghost predicate IsLatest(xs: seq<Interaction>, now: I64, a: I64) {
    (exists x :: x in xs && Bound(x, now) == a) && forall x :: x in xs ==> Bound(x, now) <= a
  }

  lemma {:induction false} AnchorIsLatest(xs: seq<Interaction>, now: I64)
    ensures Anchor(xs, now).None? <==> xs == []
    ensures xs != [] ==> IsLatest(xs, now, Anchor(xs, now).value)
  {
    if xs != [] {
      AnchorIsLatest(xs[..|xs| - 1], now);
      assert xs == xs[..|xs| - 1] + [xs[|xs| - 1]];
      assert xs[|xs| - 1] in xs;
    }
  }

  /** As time passes the anchor never moves back. */
  lemma AnchorNeverRetreats(xs: seq<Interaction>, now: I64, later: I64)
    requires now <= later && xs != []
    ensures Anchor(xs, now).value <= Anchor(xs, later).value
    ensures Anchor(xs, now).Some? && Anchor(xs, later).Some?
  {
    AnchorIsLatest(xs, now);
    AnchorIsLatest(xs, later);
    var x :| x in xs && Bound(x, now) == Anchor(xs, now).value;
    assert Bound(x, now) <= Bound(x, later);
  }

  /** It stays put while time crosses no stamp. */
  lemma {:induction false} AnchorStands(xs: seq<Interaction>, now: I64, later: I64)
    requires now <= later && forall x :: x in xs ==> !(now < x.stamp <= later)
    ensures Anchor(xs, now) == Anchor(xs, later)
  {
    if xs != [] {
      AnchorStands(xs[..|xs| - 1], now, later);
      assert xs[|xs| - 1] in xs;
    }
  }

  /** It is never later than the present, or than some birth. */
  lemma AnchorIsPast(xs: seq<Interaction>, now: I64)
    requires xs != []
    ensures exists x :: x in xs && Anchor(xs, now).Some? && (Anchor(xs, now).value <= now || Anchor(xs, now).value == x.birth)
  {
    AnchorIsLatest(xs, now);
    var x :| x in xs && Bound(x, now) == Anchor(xs, now).value;
  }

  /** What has been quiet for a whole cadence: everything is at least that old, apart from stamps
      still in the future. */
  ghost predicate Quiet(xs: seq<Interaction>, cadence: nat, now: I64) {
    forall x :: x in xs ==> x.birth + cadence <= now && (x.stamp > now || x.stamp + cadence <= now)
  }

  /** A prompt is due exactly after a quiet cadence, unless the sum saturates. */
  lemma DueExactlyWhenQuiet(xs: seq<Interaction>, cadence: nat, now: I64)
    requires xs != [] && now < I64_MAX
    ensures Anchor(xs, now).Some? && (SaturatingAdd(Anchor(xs, now).value, cadence) <= now <==> Quiet(xs, cadence, now))
  {
    AnchorIsLatest(xs, now);
    var a := Anchor(xs, now).value;
    var top :| top in xs && Bound(top, now) == a;
    if Quiet(xs, cadence, now) {
      assert Bound(top, now) + cadence <= now;
    }
    if a + cadence <= now {
      forall x | x in xs ensures x.birth + cadence <= now && (x.stamp > now || x.stamp + cadence <= now) {
        assert Bound(x, now) <= a;
      }
    }
  }

  /** Only which interactions there are matters, not their order or repetition. */
  lemma AnchorOfSame(xs: seq<Interaction>, ys: seq<Interaction>, now: I64)
    requires forall x :: x in xs <==> x in ys
    ensures Anchor(xs, now) == Anchor(ys, now)
  {
    AnchorIsLatest(xs, now);
    AnchorIsLatest(ys, now);
    assert xs != [] ==> xs[0] in ys;
    assert ys != [] ==> ys[0] in xs;
  }

  // ── The schedule ───────────────────────────────────────────────────────────

  /** The interactions a state's next prompt is anchored on, if any. */
  ghost function Anchoring(s: State): seq<Interaction> {
    match OldestBirth(Filter(IsActive(), s.questions))
    case Some(birth) => if CheckinInteractions(s, birth) == [] then [Interaction(birth, birth)] else CheckinInteractions(s, birth)
    case None => InitialInteractions(s)
  }

  /** The main prompt of a state: the check-in or the initial one. */
  function MainDue(s: State, hours: nat, now: I64): I64 {
    var anchor := CheckinAnchor(s, now);
    if anchor.Some? then SaturatingAdd(anchor.value, CadenceMs(hours)) else InitialDue(s, CadenceMs(hours), now)
  }

  lemma MainIsScheduled(s: State, hours: nat, now: I64)
    ensures exists e :: e in NextEvents(s, hours, now) && e.kind != Nudge && e.dueAt == MainDue(s, hours, now)
    ensures forall e :: e in NextEvents(s, hours, now) && e.kind != Nudge ==> e.dueAt == MainDue(s, hours, now)
  {
    var r := NextEvents(s, hours, now);
    hide CheckinAnchor, InitialDue;
    assert r[0] in r;
    assert |r| == 2 ==> r[1] in r;
  }

  /** Every main prompt is one saturated cadence after the anchor of its interactions, or due since
      the account was created when there are none. */
  lemma MainDueIsAnchored(s: State, hours: nat, now: I64)
    ensures Anchoring(s) != [] ==> Anchor(Anchoring(s), now).Some?
    ensures Anchoring(s) != [] ==> MainDue(s, hours, now) == SaturatingAdd(Anchor(Anchoring(s), now).value, CadenceMs(hours))
    ensures Anchoring(s) == [] ==> MainDue(s, hours, now) == s.accountCreatedAt
  {
    AnchorIsLatest(Anchoring(s), now);
    var birth := OldestBirth(Filter(IsActive(), s.questions));
    if birth.Some? {
      AnchorIsLatest(CheckinInteractions(s, birth.value), now);
    } else {
      AnchorIsLatest(InitialInteractions(s), now);
    }
  }

  /** For a fixed state: the main prompt's due time never moves back, stands still while time crosses
      no stamp, and is at most one cadence after the present or a birth. */
  lemma ScheduleIsStable(s: State, hours: nat, now: I64, later: I64)
    requires now <= later
    ensures MainDue(s, hours, now) <= MainDue(s, hours, later)
    ensures (forall x :: x in Anchoring(s) ==> !(now < x.stamp <= later)) ==> MainDue(s, hours, now) == MainDue(s, hours, later)
    ensures || MainDue(s, hours, now) <= now + CadenceMs(hours)
            || MainDue(s, hours, now) == s.accountCreatedAt
            || exists x :: x in Anchoring(s) && MainDue(s, hours, now) <= x.birth + CadenceMs(hours)
  {
    MainDueIsAnchored(s, hours, now);
    MainDueIsAnchored(s, hours, later);
    hide MainDue, CadenceMs, Anchor;
    var xs := Anchoring(s);
    hide Anchoring;
    if xs != [] {
      AnchorNeverRetreats(xs, now, later);
      AnchorIsPast(xs, now);
      if forall x :: x in xs ==> !(now < x.stamp <= later) {
        AnchorStands(xs, now, later);
      }
    }
  }

  /** The main prompt cannot be postponed forever: it is due exactly when nothing it is anchored on
      happened within the last cadence, whatever lies in the future; with nothing to anchor on, from
      the account's creation. */
  lemma DueAfterQuiet(s: State, hours: nat, now: I64)
    requires now < I64_MAX
    ensures Anchoring(s) != [] ==> (MainDue(s, hours, now) <= now <==> Quiet(Anchoring(s), CadenceMs(hours), now))
    ensures Anchoring(s) == [] ==> (MainDue(s, hours, now) <= now <==> s.accountCreatedAt <= now)
  {
    MainDueIsAnchored(s, hours, now);
    hide MainDue, Anchoring, CadenceMs, Anchor, Quiet;
    if Anchoring(s) != [] {
      DueExactlyWhenQuiet(Anchoring(s), CadenceMs(hours), now);
    }
  }

  /** Hence it is due at every time late enough, unless the sums saturate. */
  lemma EventuallyDue(s: State, hours: nat, now: I64)
    requires now < I64_MAX && s.accountCreatedAt <= now
    requires forall x :: x in Anchoring(s) ==> x.birth + CadenceMs(hours) <= now && x.stamp + CadenceMs(hours) <= now
    ensures MainDue(s, hours, now) <= now
  {
    DueAfterQuiet(s, hours, now);
  }

  // ── Question order ─────────────────────────────────────────────────────────

  ghost predicate SameQuestions(a: seq<Question>, b: seq<Question>) {
    forall q :: q in a <==> q in b
  }

  lemma {:induction false} OldestBirthIs(qs: seq<Question>)
    ensures OldestBirth(qs).None? <==> qs == []
    ensures qs != [] ==> exists q :: q in qs && q.createdAt == OldestBirth(qs).value
    ensures qs != [] ==> forall q :: q in qs ==> OldestBirth(qs).value <= q.createdAt
  {
    if qs != [] {
      OldestBirthIs(qs[..|qs| - 1]);
      assert qs == qs[..|qs| - 1] + [qs[|qs| - 1]];
      assert qs[|qs| - 1] in qs;
    }
  }

  lemma {:induction false} CheckinsAre(qs: seq<Question>, birth: I64)
    ensures forall x :: x in Checkins(qs, birth) <==>
      exists q :: q in qs && q.checkinAt.Some? && x == Interaction(q.checkinAt.value, birth)
  {
    if qs != [] {
      CheckinsAre(qs[..|qs| - 1], birth);
      assert qs == qs[..|qs| - 1] + [qs[|qs| - 1]];
    }
  }

  lemma {:induction false} ClosesAre(qs: seq<Question>)
    ensures forall x :: x in Closes(qs) <==> exists q :: q in qs && x == CloseOf(q)
  {
    if qs != [] {
      ClosesAre(qs[..|qs| - 1]);
      assert qs == qs[..|qs| - 1] + [qs[|qs| - 1]];
    }
  }

  /** The events do not depend on the order in which questions are listed. */
  lemma OrderIsIrrelevant(s: State, questions: seq<Question>, hours: nat, now: I64)
    requires SameQuestions(s.questions, questions)
    ensures NextEvents(s, hours, now) == NextEvents(s.(questions := questions), hours, now)
  {
    var s' := s.(questions := questions);
    SameCheckin(s, s', now);
    hide Filter, Anchor;
    ClosesAre(s.questions);
    ClosesAre(questions);
    AnchorOfSame(InitialInteractions(s), InitialInteractions(s'), now);
  }

  lemma SameCheckin(s: State, s': State, now: I64)
    requires SameQuestions(s.questions, s'.questions) && s'.checkinCompletedAt == s.checkinCompletedAt
    ensures CheckinAnchor(s, now) == CheckinAnchor(s', now)
  {
    hide Filter, Anchor, OldestBirth, Checkins;
    var a, b := Filter(IsActive(), s.questions), Filter(IsActive(), s'.questions);
    FilterMembers(IsActive(), s.questions);
    FilterMembers(IsActive(), s'.questions);
    assert SameQuestions(a, b);
    SameBirth(a, b);
    var birth := OldestBirth(a);
    if birth.Some? {
      CheckinsAre(a, birth.value);
      CheckinsAre(b, birth.value);
      AnchorOfSame(CheckinInteractions(s, birth.value), CheckinInteractions(s', birth.value), now);
    }
  }

  lemma SameBirth(a: seq<Question>, b: seq<Question>)
    requires SameQuestions(a, b)
    ensures OldestBirth(a) == OldestBirth(b)
  {
    OldestBirthIs(a);
    OldestBirthIs(b);
    assert a != [] ==> a[0] in b;
    assert b != [] ==> b[0] in a;
  }

  // ── Due times, told from the state's fields ────────────────────────────────

  /** Neither resolved nor dismissed. */
  predicate Open(q: Question) {
    q.status != Some("resolved") && q.status != Some("dismissed")
  }

  /** The birth of the oldest open question. */
  ghost predicate IsOldestOpen(s: State, birth: I64) {
    && (exists q :: q in s.questions && Open(q) && q.createdAt == birth)
    && (forall q :: q in s.questions && Open(q) ==> birth <= q.createdAt)
  }

  /** A check-in was answered then: for all questions at once, or for an open one. */
  ghost predicate AnsweredAt(s: State, stamp: I64) {
    s.checkinCompletedAt == Some(stamp) || exists q :: q in s.questions && Open(q) && q.checkinAt == Some(stamp)
  }

  /** A question born then was closed at that time: when resolved, else at its last change; or the prompt of
      an account created then was skipped. */
  ghost predicate ClosedAt(s: State, stamp: I64, birth: I64) {
    || (s.promptSkippedAt == Some(stamp) && s.accountCreatedAt == birth)
    || exists q :: q in s.questions && q.createdAt == birth && ClosingStamp(q) == stamp
  }

  function ClosingStamp(q: Question): I64 {
    match q.resolvedAt
    case Some(at) => at
    case None => q.updatedAt
  }

  /** A time counts as it is between the birth and the present, else as the birth. */
  function Counted(stamp: I64, birth: I64, now: I64): I64 {
    if birth <= stamp <= now then stamp else birth
  }

  /** The latest answer, or the birth of the oldest open question when there is none. */
  ghost predicate CheckinBegan(s: State, now: I64, birth: I64, a: I64) {
    && (forall stamp :: AnsweredAt(s, stamp) ==> Counted(stamp, birth, now) <= a)
    && (a == birth || exists stamp :: AnsweredAt(s, stamp) && Counted(stamp, birth, now) == a)
    && a >= birth
  }

  /** The latest close or skip. */
  ghost predicate LatestClose(s: State, now: I64, a: I64) {
    && (exists stamp, birth :: ClosedAt(s, stamp, birth) && Counted(stamp, birth, now) == a)
    && (forall stamp, birth :: ClosedAt(s, stamp, birth) ==> Counted(stamp, birth, now) <= a)
  }

  /** Hours between three days and four weeks, in milliseconds. */
  function Waits(hours: nat): nat {
    3_600_000 * if hours < 3 * 24 then 3 * 24 else if hours > 28 * 24 then 28 * 24 else hours
  }

  function Capped(n: int): int {
    if n > 0x7fff_ffff_ffff_ffff then 0x7fff_ffff_ffff_ffff else n
  }

  /** The check-in is due one cadence after the latest answer, or after the oldest open question was asked. */
  lemma CheckinDueTime(s: State, hours: nat, now: I64)
    requires exists q :: q in s.questions && Open(q)
    ensures var r := NextEvents(s, hours, now);
      && |r| == 1 && r[0].kind == CheckIn
      && exists birth: I64, a: I64 :: IsOldestOpen(s, birth) && CheckinBegan(s, now, birth, a) && r[0].dueAt == Capped(a + Waits(hours))
  {
    var active := Filter(IsActive(), s.questions);
    FilterMembers(IsActive(), s.questions);
    assert forall q :: IsActive()(q) <==> Open(q);
    OldestBirthIs(active);
    ActiveAnchor(s, now);
    var r := NextEvents(s, hours, now);
    hide Filter;
    var birth := OldestBirth(active).value;
    var xs, a := CheckinInteractions(s, birth), CheckinAnchor(s, now).value;
    AnswersAre(s, birth);
    AnchorIsLatest(xs, now);
    hide Anchor, CheckinInteractions, OldestBirth;
    assert IsOldestOpen(s, birth);
    CheckinBeganAt(s, now, birth, a);
    assert r == [Event(CheckIn, SaturatingAdd(a, CadenceMs(hours)))];
    assert r[0].dueAt == Capped(a + Waits(hours));
  }

  lemma CheckinBeganAt(s: State, now: I64, birth: I64, a: I64)
    requires forall stamp :: AnsweredAt(s, stamp) <==> Interaction(stamp, birth) in CheckinInteractions(s, birth)
    requires forall x :: x in CheckinInteractions(s, birth) ==> x.birth == birth
    requires var xs := CheckinInteractions(s, birth); if xs == [] then a == birth else IsLatest(xs, now, a)
    ensures CheckinBegan(s, now, birth, a)
  {
    hide AnsweredAt, CheckinInteractions;
    var xs := CheckinInteractions(s, birth);
    if xs != [] {
      var x :| x in xs && Bound(x, now) == a;
      assert x == Interaction(x.stamp, birth);
    }
    forall stamp | AnsweredAt(s, stamp) ensures Counted(stamp, birth, now) <= a {
      assert Bound(Interaction(stamp, birth), now) == Counted(stamp, birth, now);
    }
  }

  lemma AnswersAre(s: State, birth: I64)
    ensures forall stamp :: AnsweredAt(s, stamp) <==> Interaction(stamp, birth) in CheckinInteractions(s, birth)
    ensures forall x :: x in CheckinInteractions(s, birth) ==> x.birth == birth
  {
    var active := Filter(IsActive(), s.questions);
    FilterMembers(IsActive(), s.questions);
    CheckinsAre(active, birth);
    hide Filter, Checkins;
  }

  /** Without an open question the initial prompt is due one cadence after the latest close or skip, or from
      the account's creation when there was none; until a day after that it is joined by a nudge, unless
      anything was answered or skipped. */
  lemma InitialDueTime(s: State, hours: nat, now: I64)
    requires forall q :: q in s.questions ==> !Open(q)
    ensures exists e :: e in NextEvents(s, hours, now) && e.kind == Initial && InitialAt(s, hours, now, e.dueAt)
    ensures forall e :: e in NextEvents(s, hours, now) ==>
      if e.kind == Initial then InitialAt(s, hours, now, e.dueAt)
      else e == Event(Nudge, Capped(s.accountCreatedAt + 24 * 3_600_000)) && now < e.dueAt && !s.hasEverAnswered && s.promptSkippedAt.None?
  {
    assert forall q :: IsActive()(q) <==> Open(q);
    ActiveAnchor(s, now);
    var xs, due := InitialInteractions(s), InitialDue(s, CadenceMs(hours), now);
    ClosesAreAll(s);
    AnchorIsLatest(xs, now);
    assert InitialAt(s, hours, now, due) by {
      InitialFrom(s, hours, now);
    }
    var r := NextEvents(s, hours, now);
    hide InitialAt, Anchor, InitialInteractions, InitialDue, CheckinAnchor;
    assert r[0] in r;
    assert |r| == 2 ==> r[1] in r;
  }

  ghost predicate InitialAt(s: State, hours: nat, now: I64, due: I64) {
    if exists stamp, birth :: ClosedAt(s, stamp, birth) then exists a: I64 :: LatestClose(s, now, a) && due == Capped(a + Waits(hours))
    else due == s.accountCreatedAt
  }

  lemma InitialFrom(s: State, hours: nat, now: I64)
    ensures InitialAt(s, hours, now, InitialDue(s, CadenceMs(hours), now))
  {
    var xs := InitialInteractions(s);
    ClosesAreAll(s);
    AnchorIsLatest(xs, now);
    hide Anchor, InitialInteractions, ClosedAt;
    if xs == [] {
      forall stamp, birth ensures !ClosedAt(s, stamp, birth) {
        assert Interaction(stamp, birth) !in xs;
      }
    } else {
      var a := Anchor(xs, now).value;
      var x :| x in xs && Bound(x, now) == a;
      assert x == Interaction(x.stamp, x.birth) && ClosedAt(s, x.stamp, x.birth);
      forall stamp, birth | ClosedAt(s, stamp, birth) ensures Counted(stamp, birth, now) <= a {
        assert Bound(Interaction(stamp, birth), now) == Counted(stamp, birth, now);
      }
      assert LatestClose(s, now, a);
    }
  }

  lemma ClosesAreAll(s: State)
    ensures forall stamp, birth :: ClosedAt(s, stamp, birth) <==> Interaction(stamp, birth) in InitialInteractions(s)
  {
    ClosesAre(s.questions);
    hide Closes;
    forall stamp, birth ensures ClosedAt(s, stamp, birth) <==> Interaction(stamp, birth) in InitialInteractions(s) {
      var x := Interaction(stamp, birth);
      assert x in InitialInteractions(s) <==> x in Closes(s.questions) || x in Stamped(s.promptSkippedAt, s.accountCreatedAt);
      assert x in Closes(s.questions) <==> exists q :: q in s.questions && q.createdAt == birth && ClosingStamp(q) == stamp;
    }
  }

  /** The question nudge shows above eight open questions, unless it was dismissed within the last four
      weeks. */
  lemma NudgeShowsIff(active: nat, dismissedAt: Option<I64>, now: I64)
    ensures QuestionNudgeDue(active, dismissedAt, now) <==>
      active > 8 && !(dismissedAt.Some? && dismissedAt.value <= now < Capped(dismissedAt.value + 28 * 24 * 3_600_000))
  {
  }

  /** A dismissal silences the question nudge for one quiet period and no longer: the silent times
      form one stretch, from the dismissal on. */
  lemma NudgeReturns(active: nat, dismissedAt: Option<I64>, now: I64, later: I64)
    requires active > QUESTION_NUDGE_THRESHOLD && now <= later && !QuestionNudgeDue(active, dismissedAt, now)
    ensures dismissedAt.Some? && dismissedAt.value <= now
    ensures QuestionNudgeDue(active, dismissedAt, later) <==> later >= SaturatingAdd(dismissedAt.value, QUESTION_NUDGE_QUIET_MS)
    ensures now + QUESTION_NUDGE_QUIET_MS <= later ==> QuestionNudgeDue(active, dismissedAt, later)
  {
  }
}
