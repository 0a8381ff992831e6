/** The email batching job: a bounded queue feeds a map of pending batches, one per
    user, and a periodic check discards a batch or hands it to the mailer. */
module EmailBatching {
  import opened Lists
  import opened Wrappers

  datatype Post = Post(id: string, createAt: int)

  datatype Notification = Notification(userId: string, post: Post, teamName: string)

  /** A batch that left the pending map, and whether the mailer received it. */
  datatype Departure = Departure(userId: string, batch: seq<Notification>, sent: bool)

  /** What the job reads from the store: a team's id by its name, when the user last
      viewed each channel of a team, and the user's stored interval preference. */
  datatype Store = Store(
    teamByName: string -> Result<Option<string>, string>,
    lastViewedTimes: (string, string) -> Result<seq<int>, string>,
    emailInterval: string -> Result<string, string>)

  // ---------- intervals and durations ----------

  const INT64_MAX := 0x7FFF_FFFF_FFFF_FFFF
  const TWO_TO_THE_64 := 0x1_0000_0000_0000_0000
  const INT64_MIN := -0x8000_0000_0000_0000
  const SECOND := 1_000_000_000
  const BATCHING_SECONDS := "900"

  predicate AllDigits(s: string) {
    forall i :: 0 <= i < |s| ==> '0' <= s[i] <= '9'
  }

  function DecimalValue(s: string): nat
    requires AllDigits(s)
  {
    if s == [] then 0 else 10 * DecimalValue(s[..|s| - 1]) + (s[|s| - 1] as int - '0' as int)
  }

  function ParseInt64(s: string): Option<int> {
    var signed := s != [] && (s[0] == '-' || s[0] == '+');
    var digits := if signed then s[1..] else s;
    if digits == [] || !AllDigits(digits) then None
    else
      var magnitude: int := DecimalValue(digits);
      var n := if s[0] == '-' then -magnitude else magnitude;
      if INT64_MIN <= n <= INT64_MAX then Some(n) else None
  }

  function Interval(store: Store, userId: string): int {
    match store.emailInterval(userId)
    case Err(_) => ParseInt64(BATCHING_SECONDS).GetOr(0)
    case Ok(text) => ParseInt64(text).GetOr(ParseInt64(BATCHING_SECONDS).GetOr(0))
  }

  /** Division that truncates toward zero. */
  function Quotient(a: int, b: int): int
    requires b > 0
  {
    if a >= 0 then a / b else -(-a / b)
  }

  /** The whole seconds of a time in milliseconds, before 1970 too. */
  lemma SecondsOf(millis: int)
    ensures var seconds := Quotient(millis, 1000);
            if millis >= 0 then seconds * 1000 <= millis < seconds * 1000 + 1000
            else seconds * 1000 - 1000 < millis <= seconds * 1000
  {
  }

  /** A product of two 64-bit integers wraps around. */
  function Wrapped(x: int): int {
    (x - INT64_MIN) % TWO_TO_THE_64 + INT64_MIN
  }

  /** The difference of two instants is clamped to the range of a duration. */
  function Clamped(x: int): int {
    if x < INT64_MIN then INT64_MIN else if x > INT64_MAX then INT64_MAX else x
  }

  /** No duration in range is nearer. */
  lemma ClampedIs(x: int, y: int)
    requires INT64_MIN <= y <= INT64_MAX
    ensures INT64_MIN <= Clamped(x) <= INT64_MAX
    ensures if x <= y then x <= Clamped(x) <= y || Clamped(x) == x else y <= Clamped(x) <= x
  {
  }

  /** now is in nanoseconds, batchStart in milliseconds, interval in seconds. */
  predicate IsDue(now: int, batchStart: int, interval: int) {
    Clamped(now - Quotient(batchStart, 1000) * SECOND) > Wrapped(interval * SECOND)
  }

  /** Intervals of up to 292 years compare as expected: the batch is due once more than
      interval seconds have passed since the second in which it began. */
  lemma DueAfterInterval(now: int, batchStart: int, interval: int)
    requires -9_223_372_036 <= interval < 9_223_372_036
    ensures IsDue(now, batchStart, interval) <==>
            now > (Quotient(batchStart, 1000) + interval) * SECOND
  {
    assert Wrapped(interval * SECOND) == interval * SECOND;
  }

  lemma WrappedIs(x: int, laps: int, w: int)
    requires x == w + laps * TWO_TO_THE_64 && INT64_MIN <= w <= INT64_MAX
    ensures Wrapped(x) == w
  {
    assert (x - INT64_MIN) / TWO_TO_THE_64 == laps;
  }

  /** Any interval at all: what is compared is the one duration in range that differs from it by a
      multiple of 2^64 nanoseconds. */
  lemma DueForAnyInterval(now: int, batchStart: int, interval: int, laps: int, duration: int)
    requires interval * SECOND == duration + laps * TWO_TO_THE_64 && INT64_MIN <= duration <= INT64_MAX
    ensures IsDue(now, batchStart, interval) <==> Clamped(now - Quotient(batchStart, 1000) * SECOND) > duration
  {
    WrappedIs(interval * SECOND, laps, duration);
  }

  /** Intervals past that range, up to twice its length, become negative durations, so a batch
      of the current second is already due. */
  lemma HugeIntervalIsDueAtOnce(now: int, batchStart: int, interval: int)
    requires 9_223_372_036 < interval <= 18_446_744_073
    requires now >= Quotient(batchStart, 1000) * SECOND
    ensures IsDue(now, batchStart, interval)
  {
    DueForAnyInterval(now, batchStart, interval, 1, interval * SECOND - TWO_TO_THE_64);
  }

  /** The next longer one comes out as less than half a second. */
  lemma LongestIntervalsComeRound(now: int)
    ensures IsDue(now, 0, 18_446_744_074) <==> now > 290_448_384
  {
    DueForAnyInterval(now, 0, 18_446_744_074, 1, 290_448_384);
  }

  // ---------- the job as a transition system ----------

  datatype Job = Job(
    bufferSize: nat,
    queue: seq<Notification>,
    pending: map<string, seq<Notification>>,
    departed: seq<Departure>)

  function NewJob(bufferSize: nat): Job {
    Job(bufferSize, [], map[], [])
  }

  predicate Accepts(job: Job) {
    |job.queue| < job.bufferSize
  }

  function Added(job: Job, n: Notification): Job {
    if Accepts(job) then job.(queue := job.queue + [n]) else job
  }

  function PendingFor(job: Job, userId: string): seq<Notification> {
    if userId in job.pending then job.pending[userId] else []
  }

  function Received(job: Job): Job {
    if job.queue == [] then job
    else
      var n := job.queue[0];
      job.(queue := job.queue[1..], pending := job.pending[n.userId := PendingFor(job, n.userId) + [n]])
  }

  /** Whether the user viewed a channel since the batch began. Only the team of the first
      notification of the batch is ever looked up. */
  predicate Viewed(store: Store, userId: string, batch: seq<Notification>)
    requires batch != []
  {
    match store.teamByName(batch[0].teamName)
    case Err(_) => false
    case Ok(team) =>
      match store.lastViewedTimes(team.GetOr(""), userId)
      case Err(_) => false
      case Ok(times) => exists i :: 0 <= i < |times| && times[i] >= batch[0].post.createAt
  }

  predicate Due(store: Store, now: int, userId: string, batch: seq<Notification>)
    requires batch != []
  {
    IsDue(now, batch[0].post.createAt, Interval(store, userId))
  }

  predicate Leaves(store: Store, now: int, userId: string, batch: seq<Notification>)
    requires batch != []
  {
    Viewed(store, userId, batch) || Due(store, now, userId, batch)
  }

  predicate NonEmptyBatches(pending: map<string, seq<Notification>>) {
    forall u :: u in pending ==> pending[u] != []
  }

  function Checked(job: Job, store: Store, now: int, userId: string): Job
    requires NonEmptyBatches(job.pending)
  {
    if userId in job.pending && Leaves(store, now, userId, job.pending[userId]) then
      var batch := job.pending[userId];
      job.(pending := job.pending - {userId},
           departed := job.departed + [Departure(userId, batch, Due(store, now, userId, batch))])
    else
      job
  }

  /** The atomic steps. Deliveries by Add may fall between any two receives, and between
      the checks of any two users; each check may see another store and another clock. */
  datatype Event =
    | Add(n: Notification)
    | Receive
    | Check(store: Store, now: int, userId: string)

  predicate WellFormed(job: Job) {
    && |job.queue| <= job.bufferSize
    && NonEmptyBatches(job.pending)
    && (forall u, i :: u in job.pending && 0 <= i < |job.pending[u]| ==> job.pending[u][i].userId == u)
    && (forall d :: d in job.departed ==> d.batch != [])
  }

  function Next(job: Job, e: Event): (job': Job)
    requires WellFormed(job)
    ensures WellFormed(job') && job'.bufferSize == job.bufferSize
  {
    match e
    case Add(n) => Added(job, n)
    case Receive => Received(job)
    case Check(store, now, u) => Checked(job, store, now, u)
  }

  function Run(job: Job, events: seq<Event>): (job': Job)
    requires WellFormed(job)
    ensures WellFormed(job') && job'.bufferSize == job.bufferSize
    decreases |events|
  {
    if events == [] then job else Run(Next(job, events[0]), events[1..])
  }

  function Granted(job: Job, e: Event): seq<Notification> {
    if e.Add? && Accepts(job) then [e.n] else []
  }

  /** The notifications for which Add reported success, in the order of the calls. */
  function Accepted(job: Job, events: seq<Event>): seq<Notification>
    requires WellFormed(job)
    decreases |events|
  {
    if events == [] then []
    else
      Granted(job, events[0]) + Accepted(Next(job, events[0]), events[1..])
  }

  // ---------- what a stored preference stands for ----------

  /** The digits of a number in decimal, without leading zeros; none for zero. */
  function Digits(n: nat): string {
    if n == 0 then [] else Digits(n / 10) + [DigitChar(n % 10)]
  }

  function DigitChar(d: nat): char
    requires d < 10
  {
    "0123456789"[d]
  }

  function Zeros(n: nat): string {
    seq(n, i => '0')
  }

  /** A sign or none, perhaps zeros, and the digits of a number that a 64-bit integer can hold. */
  ghost predicate Denotes(text: string, n: int) {
    INT64_MIN <= n <= INT64_MAX && exists zeros: nat :: DenotesWith(text, n, zeros)
  }

  predicate DenotesWith(text: string, n: int, zeros: nat) {
    var magnitude := if n < 0 then -n else n;
    var digits := Zeros(zeros) + Digits(magnitude);
    digits != [] && HasSign(text, digits, n, magnitude)
  }

  lemma DigitCharIs(d: nat)
    requires d < 10
    ensures '0' <= DigitChar(d) <= '9' && DigitChar(d) as int - '0' as int == d
  {
  }

  lemma DigitIs(c: char)
    requires '0' <= c <= '9'
    ensures DigitChar(c as int - '0' as int) == c
  {
    DigitCharIs(c as int - '0' as int);
  }

  lemma ValueOfSnoc(digits: string, c: char)
    requires AllDigits(digits) && '0' <= c <= '9'
    ensures AllDigits(digits + [c])
    ensures DecimalValue(digits + [c]) == 10 * DecimalValue(digits) + (c as int - '0' as int)
  {
    assert (digits + [c])[..|digits|] == digits;
  }

  lemma {:induction false} ValueOfZeros(zeros: nat)
    ensures AllDigits(Zeros(zeros)) && DecimalValue(Zeros(zeros)) == 0
  {
    if zeros > 0 {
      ValueOfZeros(zeros - 1);
      assert Zeros(zeros) == Zeros(zeros - 1) + ['0'];
      ValueOfSnoc(Zeros(zeros - 1), '0');
    }
  }

  /** Reading undoes printing. */
  lemma {:induction false} ValueOfDigits(zeros: nat, n: nat)
    ensures AllDigits(Zeros(zeros) + Digits(n)) && DecimalValue(Zeros(zeros) + Digits(n)) == n
  {
    if n == 0 {
      ValueOfZeros(zeros);
      assert Zeros(zeros) + [] == Zeros(zeros);
    } else {
      ValueOfDigits(zeros, n / 10);
      DigitCharIs(n % 10);
      ValueOfSnoc(Zeros(zeros) + Digits(n / 10), DigitChar(n % 10));
      AppendAssociates(Zeros(zeros), Digits(n / 10), [DigitChar(n % 10)]);
    }
  }

  lemma DigitsOfSnoc(tens: nat, d: nat)
    requires d < 10 && (tens > 0 || d > 0)
    ensures Digits(10 * tens + d) == Digits(tens) + [DigitChar(d)]
  {
    assert (10 * tens + d) / 10 == tens && (10 * tens + d) % 10 == d;
  }

  /** One more digit behind zeros and the digits of a number. */
  lemma OneMoreDigit(init: string, c: char, tens: nat, before: nat) returns (zeros: nat)
    requires init == Zeros(before) + Digits(tens) && '0' <= c <= '9'
    ensures init + [c] == Zeros(zeros) + Digits(10 * tens + (c as int - '0' as int))
  {
    var d := c as int - '0' as int;
    if tens == 0 && d == 0 {
      zeros := before + 1;
      assert Zeros(before) + ['0'] == Zeros(zeros);
    } else {
      zeros := before;
      DigitIs(c);
      DigitsOfSnoc(tens, d);
      AppendAssociates(Zeros(before), Digits(tens), [c]);
    }
  }

  lemma ValueSplits(digits: string)
    requires digits != [] && AllDigits(digits)
    ensures var init, last := digits[..|digits| - 1], digits[|digits| - 1];
            digits == init + [last] && DecimalValue(digits) == 10 * DecimalValue(init) + (last as int - '0' as int)
  {
  }

  /** Printing undoes reading, but for leading zeros. */
  lemma {:induction false} DigitsOfValue(digits: string) returns (zeros: nat)
    requires AllDigits(digits)
    ensures digits == Zeros(zeros) + Digits(DecimalValue(digits))
    decreases |digits|
  {
    if digits == [] {
      zeros := 0;
    } else {
      var init, last := digits[..|digits| - 1], digits[|digits| - 1];
      var before := DigitsOfValue(init);
      ValueSplits(digits);
      zeros := OneMoreDigit(init, last, DecimalValue(init), before);
    }
  }

  function InRange(n: int): Option<int> {
    if INT64_MIN <= n <= INT64_MAX then Some(n) else None
  }

  /** What is read for a number with a sign or without. */
  lemma ParsedDigits(digits: string, value: int)
    requires digits != [] && AllDigits(digits) && value == DecimalValue(digits)
    ensures ParseInt64(digits) == ParseInt64("+" + digits) == InRange(value)
    ensures ParseInt64("-" + digits) == InRange(-value)
  {
    assert '0' <= digits[0] <= '9';
    assert ("+" + digits)[1..] == digits && ("-" + digits)[1..] == digits;
  }

  predicate HasSign(text: string, digits: string, n: int, magnitude: nat) {
    || (n == magnitude && (text == digits || text == "+" + digits))
    || (n + magnitude == 0 && text == "-" + digits)
  }

  /** What is read as a number has a sign or none, and then digits. */
  lemma ParsedHasDigits(text: string, n: int) returns (digits: string, magnitude: nat)
    requires ParseInt64(text) == Some(n)
    ensures INT64_MIN <= n <= INT64_MAX && digits != [] && AllDigits(digits) && magnitude == DecimalValue(digits)
    ensures HasSign(text, digits, n, magnitude)
  {
    var signed := text[0] == '-' || text[0] == '+';
    digits := if signed then text[1..] else text;
    magnitude := DecimalValue(digits);
    assert signed ==> text == [text[0]] + digits;
  }

  lemma SignedIsParsed(text: string, digits: string, n: int, magnitude: nat)
    requires INT64_MIN <= n <= INT64_MAX && digits != [] && AllDigits(digits) && magnitude == DecimalValue(digits)
    requires HasSign(text, digits, n, magnitude)
    ensures ParseInt64(text) == Some(n)
  {
    ParsedDigits(digits, magnitude);
  }

  lemma DenotedIsParsed(text: string, n: int, zeros: nat)
    requires INT64_MIN <= n <= INT64_MAX && DenotesWith(text, n, zeros)
    ensures ParseInt64(text) == Some(n)
  {
    var magnitude: nat := if n < 0 then -n else n;
    ValueOfDigits(zeros, magnitude);
    SignedIsParsed(text, Zeros(zeros) + Digits(magnitude), n, magnitude);
  }

  lemma SignedDenotes(text: string, digits: string, n: int, magnitude: nat, zeros: nat)
    requires digits != [] && digits == Zeros(zeros) + Digits(magnitude)
    requires HasSign(text, digits, n, magnitude)
    ensures DenotesWith(text, n, zeros)
  {
  }

  lemma ParsedIsDenoted(text: string, n: int) returns (zeros: nat)
    requires ParseInt64(text) == Some(n)
    ensures INT64_MIN <= n <= INT64_MAX && DenotesWith(text, n, zeros)
  {
    var digits, magnitude := ParsedHasDigits(text, n);
    zeros := DigitsOfValue(digits);
    SignedDenotes(text, digits, n, magnitude, zeros);
  }

  /** A text is read as a number exactly if it is such a decimal, and then as the number it denotes. */
  lemma ParsedIffDenoted(text: string, n: int)
    ensures ParseInt64(text) == Some(n) <==> Denotes(text, n)
  {
    if Denotes(text, n) {
      var zeros: nat :| DenotesWith(text, n, zeros);
      DenotedIsParsed(text, n, zeros);
    }
    if ParseInt64(text) == Some(n) {
      var zeros := ParsedIsDenoted(text, n);
    }
  }

  lemma DefaultIs()
    ensures ParseInt64(BATCHING_SECONDS) == Some(900)
  {
    ValueOfSnoc("", '9');
    ValueOfSnoc("9", '0');
    ValueOfSnoc("90", '0');
    assert "" + ['9'] == "9" && "9" + ['0'] == "90" && "90" + ['0'] == BATCHING_SECONDS;
    ParsedDigits(BATCHING_SECONDS, 900);
  }

  /** A batch of a user without a preference that can be read, or with one that is no number, is due after the
      default of 900 seconds. */
  lemma DueByDefault(store: Store, now: int, userId: string, batch: seq<Notification>)
    requires batch != []
    requires store.emailInterval(userId).Ok? ==> forall n :: !Denotes(store.emailInterval(userId).value, n)
    ensures Due(store, now, userId, batch) <==> now > (Quotient(batch[0].post.createAt, 1000) + 900) * 1_000_000_000
  {
    DefaultIs();
    if store.emailInterval(userId).Ok? {
      var parsed := ParseInt64(store.emailInterval(userId).value);
      if parsed.Some? {
        ParsedIffDenoted(store.emailInterval(userId).value, parsed.value);
      }
    }
    DueAfterInterval(now, batch[0].post.createAt, 900);
  }

  /** One with a number as preference is due after as many seconds, if they are no more than 292 years. */
  lemma DueByPreference(store: Store, now: int, userId: string, batch: seq<Notification>, interval: int)
    requires batch != [] && store.emailInterval(userId).Ok? && Denotes(store.emailInterval(userId).value, interval)
    ensures Due(store, now, userId, batch) <==> IsDue(now, batch[0].post.createAt, interval)
    ensures -9_223_372_036 <= interval < 9_223_372_036 ==>
              (Due(store, now, userId, batch) <==>
                 now > (Quotient(batch[0].post.createAt, 1000) + interval) * 1_000_000_000)
  {
    ParsedIffDenoted(store.emailInterval(userId).value, interval);
    if -9_223_372_036 <= interval < 9_223_372_036 {
      DueAfterInterval(now, batch[0].post.createAt, interval);
    }
  }

  /** A notification is taken exactly as long as the queue is not full, and then goes to its end. */
  lemma AddQueues(job: Job, n: Notification)
    ensures var full := |job.queue| >= job.bufferSize;
            && Added(job, n) == (if full then job else job.(queue := job.queue + [n]))
            && Granted(job, Event.Add(n)) == if full then [] else [n]
  {
  }

  // ---------- conservation and per-user order ----------

  function ForUser(ns: seq<Notification>, userId: string): seq<Notification> {
    if ns == [] then []
    else (if ns[0].userId == userId then [ns[0]] else []) + ForUser(ns[1..], userId)
  }

  function DepartedFor(ds: seq<Departure>, userId: string): seq<Notification> {
    if ds == [] then []
    else DepartedFor(ds[..|ds| - 1], userId) + (if ds[|ds| - 1].userId == userId then ds[|ds| - 1].batch else [])
  }

  /** Everything of one user's the job ever held: batches gone, batch pending, still queued. */
  function Held(job: Job, userId: string): seq<Notification> {
    DepartedFor(job.departed, userId) + PendingFor(job, userId) + ForUser(job.queue, userId)
  }

  lemma {:induction false} ForUserConcat(a: seq<Notification>, b: seq<Notification>, userId: string)
    ensures ForUser(a + b, userId) == ForUser(a, userId) + ForUser(b, userId)
  {
    if a == [] {
      assert a + b == b;
    } else {
      var both, rest := a + b, a[1..];
      assert both[0] == a[0] && both[1..] == rest + b;
      ForUserConcat(rest, b, userId);
      var first := if a[0].userId == userId then [a[0]] else [];
      AppendAssociates(first, ForUser(rest, userId), ForUser(b, userId));
    }
  }

  lemma AddedHolds(job: Job, n: Notification, userId: string)
    requires Accepts(job)
    ensures Held(Added(job, n), userId) == Held(job, userId) + ForUser([n], userId)
  {
    ForUserConcat(job.queue, [n], userId);
    var front := DepartedFor(job.departed, userId) + PendingFor(job, userId);
    assert Held(Added(job, n), userId) == front + (ForUser(job.queue, userId) + ForUser([n], userId));
  }

  lemma ReceivedHolds(job: Job, userId: string)
    ensures Held(Received(job), userId) == Held(job, userId)
  {
    if job.queue != [] {
      var n, rest := job.queue[0], ForUser(job.queue[1..], userId);
      var gone, mine := DepartedFor(job.departed, userId), PendingFor(job, userId);
      if n.userId == userId {
        assert PendingFor(Received(job), userId) == mine + [n];
        assert gone + (mine + [n]) + rest == gone + mine + ([n] + rest);
      } else {
        assert PendingFor(Received(job), userId) == mine;
        assert [] + rest == rest;
      }
    }
  }

  lemma CheckedHolds(job: Job, store: Store, now: int, u: string, userId: string)
    requires NonEmptyBatches(job.pending)
    ensures Held(Checked(job, store, now, u), userId) == Held(job, userId)
  {
    var job' := Checked(job, store, now, u);
    if u in job.pending && Leaves(store, now, u, job.pending[u]) {
      var batch := if u == userId then job.pending[u] else [];
      assert job'.departed[..|job'.departed| - 1] == job.departed;
      assert DepartedFor(job'.departed, userId) == DepartedFor(job.departed, userId) + batch;
      assert PendingFor(job, userId) == batch + PendingFor(job', userId);
      var gone, left := DepartedFor(job.departed, userId), PendingFor(job', userId);
      assert gone + batch + left == gone + (batch + left);
    }
  }

  /** One step adds to a user's holdings exactly what it accepted for that user, at the end. */
  lemma NextHolds(job: Job, e: Event, userId: string)
    requires WellFormed(job)
    ensures Held(Next(job, e), userId) == Held(job, userId) + ForUser(Granted(job, e), userId)
  {
    match e
    case Add(n) =>
      if Accepts(job) {
        AddedHolds(job, n, userId);
      }
    case Receive =>
      ReceivedHolds(job, userId);
    case Check(store, now, u) =>
      CheckedHolds(job, store, now, u, userId);
  }

  lemma {:induction false} RunHolds(job: Job, events: seq<Event>, userId: string)
    requires WellFormed(job)
    ensures Held(Run(job, events), userId) == Held(job, userId) + ForUser(Accepted(job, events), userId)
    decreases |events|
  {
    if events != [] {
      var job1, step := Next(job, events[0]), Granted(job, events[0]);
      var rest := Accepted(job1, events[1..]);
      NextHolds(job, events[0], userId);
      RunHolds(job1, events[1..], userId);
      ForUserConcat(step, rest, userId);
      AppendAssociates(Held(job, userId), ForUser(step, userId), ForUser(rest, userId));
    }
  }

  /** In every state reachable by any interleaving: what departed for a user, what is pending
      and what is queued are exactly that user's accepted notifications, in acceptance order.
      No batch is empty, none is filed under another user, and the queue is within bounds. */
  lemma NothingLostOrReordered(bufferSize: nat, events: seq<Event>, userId: string)
    ensures Held(Run(NewJob(bufferSize), events), userId) ==
            ForUser(Accepted(NewJob(bufferSize), events), userId)
    ensures WellFormed(Run(NewJob(bufferSize), events))
    ensures |Run(NewJob(bufferSize), events).queue| <= bufferSize
  {
    RunHolds(NewJob(bufferSize), events, userId);
  }

  // ---------- the order in which the map is walked ----------

  /** One of the orders in which a range over the pending map may visit its keys. */
  ghost predicate IsOrderOf(order: seq<string>, pending: map<string, seq<Notification>>) {
    Distinct(order) && forall u :: u in order <==> u in pending
  }

  function CheckAll(job: Job, store: Store, now: int, order: seq<string>): (job': Job)
    requires NonEmptyBatches(job.pending)
    ensures NonEmptyBatches(job'.pending)
    decreases |order|
  {
    if order == [] then job else CheckAll(Checked(job, store, now, order[0]), store, now, order[1..])
  }

  function Surviving(pending: map<string, seq<Notification>>, store: Store, now: int): map<string, seq<Notification>>
    requires NonEmptyBatches(pending)
  {
    map u | u in pending && !Leaves(store, now, u, pending[u]) :: pending[u]
  }

  function Leaving(pending: map<string, seq<Notification>>, store: Store, now: int): set<Departure>
    requires NonEmptyBatches(pending)
  {
    set u | u in pending && Leaves(store, now, u, pending[u]) ::
      Departure(u, pending[u], Due(store, now, u, pending[u]))
  }

  /** The batches that leave when the given users are checked once each. */
  function LeavingAmong(pending: map<string, seq<Notification>>, store: Store, now: int,
                        users: set<string>): set<Departure>
    requires NonEmptyBatches(pending)
  {
    set u | u in users && u in pending && Leaves(store, now, u, pending[u]) ::
      Departure(u, pending[u], Due(store, now, u, pending[u]))
  }

  function Without(pending: map<string, seq<Notification>>, store: Store, now: int,
                   users: set<string>): map<string, seq<Notification>>
    requires NonEmptyBatches(pending)
  {
    map u | u in pending && !(u in users && Leaves(store, now, u, pending[u])) :: pending[u]
  }

  lemma WithoutOneMore(job: Job, store: Store, now: int, users: set<string>, u0: string)
    requires NonEmptyBatches(job.pending) && u0 !in users
    ensures Without(Checked(job, store, now, u0).pending, store, now, users) ==
            Without(job.pending, store, now, users + {u0})
  {
  }

  lemma LeavingOneMore(job: Job, store: Store, now: int, users: set<string>, u0: string)
    requires NonEmptyBatches(job.pending) && u0 !in users
    ensures multiset(LeavingAmong(job.pending, store, now, users + {u0})) ==
            multiset(Checked(job, store, now, u0).departed[|job.departed|..]) +
            multiset(LeavingAmong(Checked(job, store, now, u0).pending, store, now, users))
  {
    var job1 := Checked(job, store, now, u0);
    var gone, gone1 := LeavingAmong(job.pending, store, now, users + {u0}),
        LeavingAmong(job1.pending, store, now, users);
    if u0 in job.pending && Leaves(store, now, u0, job.pending[u0]) {
      var d0 := Departure(u0, job.pending[u0], Due(store, now, u0, job.pending[u0]));
      assert job1.departed[|job.departed|..] == [d0];
      assert gone == {d0} + gone1 && d0 !in gone1;
    } else {
      assert job1.departed[|job.departed|..] == [];
      assert gone == gone1;
    }
  }

  /** What one walk leaves pending and which batches it sends or discards depend on the
      users visited, the pending map, the store and the clock alone. */
  lemma {:induction false} CheckAllOutcome(job: Job, store: Store, now: int, order: seq<string>)
    requires NonEmptyBatches(job.pending) && Distinct(order)
    ensures CheckAll(job, store, now, order).pending == Without(job.pending, store, now, Elements(order))
    ensures job.departed <= CheckAll(job, store, now, order).departed
    ensures multiset(CheckAll(job, store, now, order).departed[|job.departed|..]) ==
            multiset(LeavingAmong(job.pending, store, now, Elements(order)))
    decreases |order|
  {
    if order == [] {
      assert LeavingAmong(job.pending, store, now, Elements(order)) == {};
    } else {
      var u0, rest := order[0], order[1..];
      assert u0 !in rest;
      assert Elements(order) == Elements(rest) + {u0};
      var job1 := Checked(job, store, now, u0);
      CheckAllOutcome(job1, store, now, rest);
      WithoutOneMore(job, store, now, Elements(rest), u0);
      LeavingOneMore(job, store, now, Elements(rest), u0);
      SuffixesAdd(job.departed, job1.departed, CheckAll(job1, store, now, rest).departed);
    }
  }

  lemma SuffixesAdd(a: seq<Departure>, b: seq<Departure>, c: seq<Departure>)
    requires a <= b <= c
    ensures multiset(c[|a|..]) == multiset(b[|a|..]) + multiset(c[|b|..])
  {
    assert c[|a|..] == b[|a|..] + c[|b|..];
  }

  lemma WholeMapOutcome(job: Job, store: Store, now: int, order: seq<string>)
    requires NonEmptyBatches(job.pending) && IsOrderOf(order, job.pending)
    ensures CheckAll(job, store, now, order).pending == Surviving(job.pending, store, now)
    ensures job.departed <= CheckAll(job, store, now, order).departed
    ensures multiset(CheckAll(job, store, now, order).departed) ==
            multiset(job.departed) + multiset(Leaving(job.pending, store, now))
  {
    CheckAllOutcome(job, store, now, order);
    assert Leaving(job.pending, store, now) == LeavingAmong(job.pending, store, now, Elements(order));
    var departed := CheckAll(job, store, now, order).departed;
    assert departed == job.departed + departed[|job.departed|..];
  }

  /** Has the user viewed some channel of a team since a moment? Channels of a team that is not found are asked for
      without a team. */
  ghost predicate ViewedSince(store: Store, userId: string, teamName: string, since: int) {
    exists teamId, times, time ::
      && (store.teamByName(teamName) == Ok(Some(teamId)) || (store.teamByName(teamName) == Ok(None) && teamId == ""))
      && store.lastViewedTimes(teamId, userId) == Ok(times) && time in times && time >= since
  }

  /** The check of a user touches nobody else's batch. It keeps the user's own exactly if it is not due, and no
      channel of its first notification's team was viewed since that notification's post; otherwise it hands over or
      discards the batch whole, and hands it over exactly if it is due. */
  lemma CheckedOutcome(job: Job, store: Store, now: int, userId: string)
    requires NonEmptyBatches(job.pending) && userId in job.pending
    ensures var batch, after := job.pending[userId], Checked(job, store, now, userId);
            && after.queue == job.queue && after.bufferSize == job.bufferSize
            && if ViewedSince(store, userId, batch[0].teamName, batch[0].post.createAt) ||
                  Due(store, now, userId, batch)
               then after.pending == job.pending - {userId} &&
                    after.departed == job.departed + [Departure(userId, batch, Due(store, now, userId, batch))]
               else after == job
  {
    var batch := job.pending[userId];
    ViewedIff(store, userId, batch);
  }

  lemma ViewedIff(store: Store, userId: string, batch: seq<Notification>)
    requires batch != []
    ensures Viewed(store, userId, batch) <==> ViewedSince(store, userId, batch[0].teamName, batch[0].post.createAt)
  {
    var team := store.teamByName(batch[0].teamName);
    if Viewed(store, userId, batch) {
      var times := store.lastViewedTimes(team.value.GetOr(""), userId).value;
      var i :| 0 <= i < |times| && times[i] >= batch[0].post.createAt;
      assert times[i] in times;
    }
  }

  /** Two walks of the same map in different orders end in the same pending map, with the
      same batches sent and the same batches discarded. */
  lemma WalkOrderDoesNotMatter(job: Job, store: Store, now: int, order1: seq<string>, order2: seq<string>)
    requires NonEmptyBatches(job.pending)
    requires IsOrderOf(order1, job.pending) && IsOrderOf(order2, job.pending)
    ensures CheckAll(job, store, now, order1).pending == CheckAll(job, store, now, order2).pending
    ensures multiset(CheckAll(job, store, now, order1).departed) ==
            multiset(CheckAll(job, store, now, order2).departed)
  {
    WholeMapOutcome(job, store, now, order1);
    WholeMapOutcome(job, store, now, order2);
  }

  /** The break that follows a deletion leaves only the innermost loop: a viewed batch whose
      interval has passed is still sent. */
  lemma ViewedBatchIsStillSent()
    ensures exists job, store, now, u ::
              WellFormed(job) && u in job.pending && Viewed(store, u, job.pending[u]) &&
              Checked(job, store, now, u).departed == [Departure(u, job.pending[u], true)]
  {
    var n := Notification("u", Post("p", 0), "t");
    var job := Job(1, [], map["u" := [n]], []);
    var store := Store(name => Ok(Some("tid")), (t, u) => Ok([5]), u => Ok("0"));
    assert DecimalValue("0") == 10 * DecimalValue("0"[..0]) + 0;
    assert ParseInt64("0") == Some(0);
    assert Viewed(store, "u", [n]) by {
      var times := [5];
      assert times[0] >= 0;
    }
    assert Checked(job, store, 1, "u").departed == [Departure("u", [n], true)];
  }

  /** A view in the team of a later notification does not discard the batch. */
  lemma OnlyFirstTeamIsInspected(store: Store, userId: string, batch: seq<Notification>, other: seq<Notification>)
    requires batch != [] && other != [] && batch[0] == other[0]
    ensures Viewed(store, userId, batch) <==> Viewed(store, userId, other)
  {
  }

  // ---------- the job itself ----------

  class EmailBatchingJob {
    const bufferSize: nat
    var newNotifications: seq<Notification>
    var pendingNotifications: map<string, seq<Notification>>
    ghost var departed: seq<Departure>

    ghost function Model(): Job
      reads this
    {
      Job(bufferSize, newNotifications, pendingNotifications, departed)
    }

    ghost predicate Valid()
      reads this
    {
      WellFormed(Model())
    }

    constructor (bufferSize: nat)
      ensures Valid() && Model() == NewJob(bufferSize)
    {
      this.bufferSize := bufferSize;
      newNotifications, pendingNotifications, departed := [], map[], [];
    }

    method Add(userId: string, post: Post, teamName: string) returns (queued: bool)
      requires Valid()
      modifies this
      ensures Valid() && Model() == Next(old(Model()), Event.Add(Notification(userId, post, teamName)))
      ensures queued == old(Accepts(Model()))
    {
      var notification := Notification(userId, post, teamName);
      if |newNotifications| < bufferSize {
        newNotifications := newNotifications + [notification];
        return true;
      }
      return false;
    }

    /** One receive of the drain loop; false when the queue was empty. */
    method ReceiveOne() returns (receiving: bool)
      requires Valid()
      modifies this
      ensures Valid() && Model() == Next(old(Model()), Receive)
      ensures receiving == (old(newNotifications) != [])
    {
      if newNotifications == [] {
        return false;
      }
      var notification := newNotifications[0];
      newNotifications := newNotifications[1..];
      var userId := notification.userId;
      if userId !in pendingNotifications {
        assert [notification] == [] + [notification];
        pendingNotifications := pendingNotifications[userId := [notification]];
      } else {
        pendingNotifications := pendingNotifications[userId := pendingNotifications[userId] + [notification]];
      }
      return true;
    }

    /** With no delivery in between, the drain empties the queue and files every notification
        behind the ones its user already had. */
    method HandleNewNotifications()
      requires Valid()
      modifies this
      ensures Valid() && newNotifications == [] && departed == old(departed)
      ensures forall u :: Held(Model(), u) == old(Held(Model(), u))
    {
      var receiving := true;
      while receiving
        invariant Valid() && departed == old(departed)
        invariant !receiving ==> newNotifications == []
        invariant forall u :: Held(Model(), u) == old(Held(Model(), u))
        decreases |newNotifications|, receiving
      {
        ghost var before := Model();
        receiving := ReceiveOne();
        forall u ensures Held(Model(), u) == Held(before, u) {
          NextHolds(before, Receive, u);
        }
      }
    }

    /** The check of one user of the map. */
    method CheckUser(userId: string, store: Store, now: int) returns (sent: bool)
      requires Valid() && userId in pendingNotifications
      modifies this
      ensures Valid() && Model() == Next(old(Model()), Check(store, now, userId))
      ensures sent == old(Due(store, now, userId, pendingNotifications[userId]))
    {
      ghost var before := pendingNotifications;
      var notifications := pendingNotifications[userId];
      var batchStartTime := notifications[0].post.createAt;
      ghost var viewed := Viewed(store, userId, notifications);
      var inspectedTeamNames: map<string, string> := map[];
      var i := 0;
      while i < |notifications|
        invariant 0 <= i <= |notifications|
        invariant pendingNotifications == if i > 0 && viewed then before - {userId} else before
        invariant forall name :: name in inspectedTeamNames ==>
                    i > 0 && store.teamByName(notifications[0].teamName) == Ok(Some(inspectedTeamNames[name]))
        invariant newNotifications == old(newNotifications) && departed == old(departed)
      {
        var notification := notifications[i];
        i := i + 1;
        if notification.teamName in inspectedTeamNames && inspectedTeamNames[notification.teamName] != "" {
          continue;
        }
        var team := store.teamByName(notifications[0].teamName);
        if team.Err? {
          continue;
        }
        if team.value.Some? {
          inspectedTeamNames := inspectedTeamNames[notification.teamName := team.value.value];
        }
        var teamId := if notification.teamName in inspectedTeamNames then inspectedTeamNames[notification.teamName]
            else "";
        var lastViewed := store.lastViewedTimes(teamId, userId);
        if lastViewed.Err? {
          continue;
        }
        assert teamId == team.value.GetOr("");
        var j := 0;
        while j < |lastViewed.value|
          invariant 0 <= j <= |lastViewed.value|
          invariant forall k :: 0 <= k < j ==> lastViewed.value[k] < batchStartTime
          invariant pendingNotifications == if i > 1 && viewed then before - {userId} else before
          invariant newNotifications == old(newNotifications) && departed == old(departed)
        {
          if lastViewed.value[j] >= batchStartTime {
            pendingNotifications := pendingNotifications - {userId};
            break;
          }
          j := j + 1;
        }
      }
      var interval := Interval(store, userId);
      sent := IsDue(now, batchStartTime, interval);
      if sent {
        pendingNotifications := pendingNotifications - {userId};
      }
      if viewed || sent {
        departed := departed + [Departure(userId, notifications, sent)];
      }
    }

    /** A whole check, in whatever order the map is walked: the ghost result names the order. */
    method CheckPendingNotifications(store: Store, now: int)
      returns (handled: seq<(string, seq<Notification>)>, ghost order: seq<string>)
      requires Valid()
      modifies this
      ensures Valid() && newNotifications == old(newNotifications)
      ensures IsOrderOf(order, old(pendingNotifications))
      ensures Model() == CheckAll(old(Model()), store, now, order)
      ensures pendingNotifications == Surviving(old(pendingNotifications), store, now)
      ensures forall call :: call in handled <==>
                call.0 in old(pendingNotifications) && call.1 == old(pendingNotifications)[call.0] &&
                Due(store, now, call.0, call.1)
      ensures Distinct(handled)
    {
      handled, order := [], [];
      var todo := pendingNotifications.Keys;
      ghost var start := Model();
      assert CheckAll(start, store, now, []) == start;
      while todo != {}
        invariant Valid() && newNotifications == old(newNotifications)
        invariant todo <= pendingNotifications.Keys
        invariant forall u :: u in todo ==> pendingNotifications[u] == start.pending[u]
        invariant Distinct(order) && forall u :: u in start.pending <==> (u in order || u in todo)
        invariant forall u :: u in order ==> u !in todo
        invariant Model() == CheckAll(start, store, now, order)
        invariant Distinct(handled)
        invariant forall call :: call in handled <==>
                    call.0 in order && call.0 in start.pending && call.1 == start.pending[call.0] &&
                    Due(store, now, call.0, call.1)
        decreases todo
      {
        var userId :| userId in todo;
        todo := todo - {userId};
        var batch := pendingNotifications[userId];
        var sent := CheckUser(userId, store, now);
        if sent {
          handled := handled + [(userId, batch)];
        }
        CheckAllSnoc(start, store, now, order, userId);
        order := order + [userId];
      }
      WholeMapOutcome(start, store, now, order);
    }

    /** A run of the periodic task: drain the queue, then check every user. */
    method CheckPendingEmails(store: Store, now: int) returns (handled: seq<(string, seq<Notification>)>)
      requires Valid()
      modifies this
      ensures Valid() && newNotifications == []
      ensures forall u :: u in pendingNotifications ==>
                pendingNotifications[u] == old(PendingFor(Model(), u) + ForUser(newNotifications, u)) &&
                !Leaves(store, now, u, pendingNotifications[u])
      ensures forall call :: call in handled <==>
                call.1 != [] && call.1 == old(PendingFor(Model(), call.0) + ForUser(newNotifications, call.0)) &&
                Due(store, now, call.0, call.1)
      ensures Distinct(handled)
    {
      ghost var before := Model();
      HandleNewNotifications();
      ghost var drained := Model();
      forall u ensures PendingFor(drained, u) == PendingFor(before, u) + ForUser(before.queue, u) {
        assert Held(drained, u) == Held(before, u);
        var gone := DepartedFor(before.departed, u);
        assert Held(drained, u)[|gone|..] == PendingFor(drained, u);
        assert Held(before, u)[|gone|..] == PendingFor(before, u) + ForUser(before.queue, u);
      }
      ghost var order;
      handled, order := CheckPendingNotifications(store, now);
    }
  }

  lemma {:induction false} CheckAllSnoc(job: Job, store: Store, now: int, order: seq<string>, userId: string)
    requires NonEmptyBatches(job.pending)
    ensures CheckAll(job, store, now, order + [userId]) ==
            Checked(CheckAll(job, store, now, order), store, now, userId)
    decreases |order|
  {
    if order == [] {
      assert (order + [userId])[1..] == [];
    } else {
      assert (order + [userId])[1..] == order[1..] + [userId];
      CheckAllSnoc(Checked(job, store, now, order[0]), store, now, order[1..], userId);
    }
  }
}
