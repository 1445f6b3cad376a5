/**
 * The batch front end: the credential decision at start-up, parsing the
 * domain list, the checks made before a batch starts, the worker loop that
 * looks up and deletes each domain, and the progress label with its ETA.
 *
 * The worker runs sequentially here. What the client calls return for each
 * item is a parameter (an `ItemScript` per position). The clock is an integer
 * count of milliseconds.
 */
module App {
  import opened Wrappers
  import opened PyText
  import opened CloudflareClient

  /** The largest batch the front end accepts. */
  const MaxBatch: nat := 10

  // ---------------------------------------------------------- credentials

  /**
   * `load_credentials` once the environment has been read: all three values
   * are None exactly when there is no token and not both an email and a key.
   */
  function LoadCredentials(token: Option<string>, email: Option<string>, apiKey: Option<string>)
    : (r: (Option<string>, Option<string>, Option<string>))
    ensures r == (None, None, None) <==> !HasCredentials(token, email, apiKey)
    ensures HasCredentials(token, email, apiKey) ==> r == (token, email, apiKey)
  {
    if !HasCredentials(token, email, apiKey) then (None, None, None)
    else (token, email, apiKey)
  }

  /** The client `App.__init__` builds from the loaded values, with the client's defaults; None when construction fails. */
  function InitClient(token: Option<string>, email: Option<string>, apiKey: Option<string>): Option<Client> {
    if HasCredentials(token, email, apiKey) then
      match NewClient(token, email, apiKey, DefaultBaseUrl, DefaultTimeout, DefaultMaxRetries)
      case Success(c) => Some(c)
      case Failure(_) => None
    else None
  }

  /**
   * At start-up the app has a client exactly when the environment holds
   * usable credentials, and that client carries them unchanged.
   */
  lemma StartupClient(token: Option<string>, email: Option<string>, apiKey: Option<string>)
    ensures var (t, e, k) := LoadCredentials(token, email, apiKey);
            var c := InitClient(t, e, k);
            (c.Some? <==> HasCredentials(token, email, apiKey))
            && (c.Some? ==> Valid(c.value) && c.value.apiToken == token && c.value.email == email
                            && c.value.apiKey == apiKey && c.value.maxRetries == DefaultMaxRetries)
  {
  }

  // ---------------------------------------------------------- parsing the domain list

  predicate NoDuplicates(xs: seq<string>) {
    forall i, j :: 0 <= i < j < |xs| ==> xs[i] != xs[j]
  }

  /** `[line.strip() for line in lines]`. */
  function StripAll(lines: seq<string>): (r: seq<string>)
    ensures |r| == |lines| && forall k :: 0 <= k < |lines| ==> r[k] == Strip(lines[k])
  {
    seq(|lines|, k requires 0 <= k < |lines| => Strip(lines[k]))
  }

  /** `[x for x in items if x]`: the non-empty items, in order. */
  function NonBlank(items: seq<string>): (r: seq<string>)
    ensures forall x :: x in r <==> x in items && x != ""
  {
    if items == [] then []
    else (if items[0] != "" then [items[0]] else []) + NonBlank(items[1..])
  }

  /** The filter works item by item: a single item is kept iff it is non-empty. */
  lemma NonBlankSingle(x: string)
    ensures NonBlank([x]) == if x != "" then [x] else []
  {
    assert [x][1..] == [];
  }

  /** Filtering a concatenation filters each part, keeping their order. */
  lemma {:induction false} NonBlankAppend(a: seq<string>, b: seq<string>)
    ensures NonBlank(a + b) == NonBlank(a) + NonBlank(b)
  {
    if a == [] {
      assert a + b == b;
    } else {
      assert (a + b)[0] == a[0];
      assert (a + b)[1..] == a[1..] + b;
      NonBlankAppend(a[1..], b);
    }
  }

  lemma {:induction false} NonBlankKeepsNonEmpty(items: seq<string>)
    requires forall k :: 0 <= k < |items| ==> items[k] != ""
    ensures NonBlank(items) == items
  {
    if items != [] {
      NonBlankKeepsNonEmpty(items[1..]);
      assert items == [items[0]] + items[1..];
    }
  }

  /** The first occurrence of each item, in the order items first occur. */
  function Dedup(items: seq<string>): seq<string> {
    if items == [] then []
    else
      var d := Dedup(items[..|items| - 1]);
      if items[|items| - 1] in d then d else d + [items[|items| - 1]]
  }

  /** The stripped, non-blank lines of the text, duplicates included. */
  function Candidates(text: string): seq<string> {
    NonBlank(StripAll(SplitLines(text)))
  }

  /** What `_parse_domains` returns for a text. */
  function Parsed(text: string): seq<string> {
    Dedup(Candidates(text))
  }

  /** The loop of `_parse_domains`: a `seen` set, and each item not seen before appended. */
  method FirstOccurrences(items: seq<string>) returns (out: seq<string>)
    ensures out == Dedup(items)
  {
    var seen: set<string> := {};
    out := [];
    for i := 0 to |items|
      invariant out == Dedup(items[..i])
      invariant forall x :: x in seen <==> x in out
    {
      assert items[..i + 1][..i] == items[..i];
      if items[i] !in seen {
        seen := seen + {items[i]};
        out := out + [items[i]];
      }
    }
    assert items[..|items|] == items;
  }

  /**
   * `_parse_domains`: strip each line, drop blank ones, then keep the first
   * occurrence of each.
   */
  method ParseDomains(text: string) returns (out: seq<string>)
    ensures out == Parsed(text)
    ensures NoDuplicates(out)
    ensures forall i :: 0 <= i < |out| ==> out[i] != "" && IsStripped(out[i]) && NoLineBreak(out[i])
    ensures forall x :: x in out <==> x in Candidates(text)
  {
    var items := NonBlank(StripAll(SplitLines(text)));
    out := FirstOccurrences(items);
    DedupElements(items);
    DedupNoDuplicates(items);
    CandidateFacts(text);
    forall k | 0 <= k < |out|
      ensures out[k] != "" && IsStripped(out[k]) && NoLineBreak(out[k])
    {
      assert out[k] in items;
    }
  }

  /** Deduplication keeps exactly the items it is given. */
  lemma {:induction false} DedupElements(items: seq<string>)
    ensures forall x :: x in Dedup(items) <==> x in items
  {
    if items != [] {
      var prefix := items[..|items| - 1];
      DedupElements(prefix);
      assert items == prefix + [items[|items| - 1]];
    }
  }

  /** Deduplication leaves no item twice. */
  lemma {:induction false} DedupNoDuplicates(items: seq<string>)
    ensures NoDuplicates(Dedup(items))
  {
    if items != [] {
      DedupNoDuplicates(items[..|items| - 1]);
    }
  }

  /** A list without duplicates is its own deduplication. */
  lemma {:induction false} DedupKeepsDistinct(items: seq<string>)
    requires NoDuplicates(items)
    ensures Dedup(items) == items
  {
    if items != [] {
      var prefix := items[..|items| - 1];
      assert NoDuplicates(prefix);
      DedupKeepsDistinct(prefix);
      assert items[|items| - 1] !in prefix;
      assert items == prefix + [items[|items| - 1]];
    }
  }

  /** The index of the first occurrence of x. */
  function FirstIndex(xs: seq<string>, x: string): (i: nat)
    requires x in xs
    ensures i < |xs| && xs[i] == x && x !in xs[..i]
  {
    if xs[0] == x then 0
    else
      var k := FirstIndex(xs[1..], x);
      assert xs[..1 + k] == [xs[0]] + xs[1..][..k];
      1 + k
  }

  lemma FirstIndexIs(xs: seq<string>, x: string, i: nat)
    requires i < |xs| && xs[i] == x && x !in xs[..i]
    ensures FirstIndex(xs, x) == i
  {
  }

  /** Extending a list at the end leaves the first occurrences of what it held unchanged. */
  lemma FirstIndexExtend(xs: seq<string>, y: string, x: string)
    requires x in xs
    ensures x in xs + [y] && FirstIndex(xs + [y], x) == FirstIndex(xs, x)
  {
    var i := FirstIndex(xs, x);
    assert (xs + [y])[..i] == xs[..i];
    FirstIndexIs(xs + [y], x, i);
  }

  /** The items of d occur in xs, and d lists them in the order of their first occurrences there. */
  predicate FirstOccurrenceOrder(d: seq<string>, xs: seq<string>) {
    (forall k :: 0 <= k < |d| ==> d[k] in xs)
    && forall i, j :: 0 <= i < j < |d| ==> FirstIndex(xs, d[i]) < FirstIndex(xs, d[j])
  }

  lemma OrderExtend(d: seq<string>, xs: seq<string>, y: string)
    requires FirstOccurrenceOrder(d, xs)
    ensures FirstOccurrenceOrder(d, xs + [y])
    ensures forall k :: 0 <= k < |d| ==> FirstIndex(xs + [y], d[k]) < |xs|
  {
    forall k | 0 <= k < |d|
      ensures FirstIndex(xs + [y], d[k]) == FirstIndex(xs, d[k])
    {
      FirstIndexExtend(xs, y, d[k]);
    }
  }

  lemma OrderAppendNew(d: seq<string>, xs: seq<string>, y: string)
    requires FirstOccurrenceOrder(d, xs) && y !in xs
    ensures FirstOccurrenceOrder(d + [y], xs + [y])
  {
    OrderExtend(d, xs, y);
    FirstIndexIs(xs + [y], y, |xs|);
    var r := d + [y];
    forall i, j | 0 <= i < j < |r|
      ensures FirstIndex(xs + [y], r[i]) < FirstIndex(xs + [y], r[j])
    {
      assert r[i] == d[i];
      if j < |d| {
        assert r[j] == d[j];
      }
    }
  }

  /** Deduplication lists items in the order of their first occurrences. */
  lemma {:induction false} DedupFirstOccurrenceOrder(items: seq<string>)
    ensures FirstOccurrenceOrder(Dedup(items), items)
  {
    if items != [] {
      var prefix := items[..|items| - 1];
      var y := items[|items| - 1];
      var d := Dedup(prefix);
      DedupFirstOccurrenceOrder(prefix);
      DedupElements(prefix);
      assert items == prefix + [y];
      if y in d {
        OrderExtend(d, prefix, y);
      } else {
        OrderAppendNew(d, prefix, y);
      }
    }
  }

  /** Every candidate is non-empty, stripped and free of line boundaries. */
  lemma CandidateFacts(text: string)
    ensures forall x :: x in Candidates(text) ==> x != "" && IsStripped(x) && NoLineBreak(x)
  {
    var lines := SplitLines(text);
    var stripped := StripAll(lines);
    forall x | x in Candidates(text)
      ensures x != "" && IsStripped(x) && NoLineBreak(x)
    {
      assert x in stripped;
      var k :| 0 <= k < |stripped| && stripped[k] == x;
      StripKeepsNoLineBreak(lines[k]);
    }
  }

  /**
   * Parsing is idempotent: the parsed list, joined by newlines and parsed
   * again, is the same list.
   */
  lemma ParseIdempotent(text: string)
    ensures Parsed(Join(Parsed(text), "\n")) == Parsed(text)
  {
    var p := Parsed(text);
    DedupElements(Candidates(text));
    DedupNoDuplicates(Candidates(text));
    CandidateFacts(text);
    assert forall k :: 0 <= k < |p| ==> p[k] in Candidates(text);
    CandidatesOfLines(p);
    DedupKeepsDistinct(p);
  }

  /** Non-blank stripped lines, joined by "\n", are the candidates of the joined text. */
  lemma CandidatesOfLines(p: seq<string>)
    requires forall k :: 0 <= k < |p| ==> p[k] != "" && IsStripped(p[k]) && NoLineBreak(p[k])
    ensures Candidates(Join(p, "\n")) == p
  {
    SplitJoinLines(p);
    forall k | 0 <= k < |p|
      ensures Strip(p[k]) == p[k]
    {
      StripStripped(p[k]);
    }
    assert StripAll(p) == p;
    NonBlankKeepsNonEmpty(p);
  }

  /** The example text's candidates are its three lines, unchanged. */
  lemma ExampleCandidates()
    ensures Candidates("a.com\nb.com\na.com") == ["a.com", "b.com", "a.com"]
  {
    var lines := ["a.com", "b.com", "a.com"];
    assert Join(lines, "\n") == "a.com\nb.com\na.com" by {
      assert Join(lines[2..], "\n") == "a.com";
      assert Join(lines[1..], "\n") == "b.com\na.com";
    }
    CandidatesOfLines(lines);
  }

  /** A repeated line is dropped: a.com, b.com, a.com becomes a.com, b.com. */
  lemma DedupExample()
    ensures Dedup(["a.com", "b.com", "a.com"]) == ["a.com", "b.com"]
  {
    assert ["a.com", "b.com", "a.com"][..2] == ["a.com", "b.com"];
    assert ["a.com", "b.com"][..1] == ["a.com"];
    assert ["a.com"][..0] == [];
  }

  /** "a.com\nb.com\na.com" parses to ["a.com", "b.com"]. */
  lemma RepeatedLineExample()
    ensures Parsed("a.com\nb.com\na.com") == ["a.com", "b.com"]
  {
    ExampleCandidates();
    DedupExample();
  }

  // ---------------------------------------------------------- starting a batch

  /** What pressing DELETE leads to. */
  datatype Decision =
    | NoDomains
    | TooManyDomains(count: nat)
    | MissingCredentials
    | Declined
    | StartWorker(domains: seq<string>)

  /**
   * The checks of `on_delete`, in order: an empty list, a list longer than
   * MaxBatch, no client, then the user's confirmation.
   */
  function Validate(domains: seq<string>, hasClient: bool, confirmed: bool): (d: Decision)
    ensures d == NoDomains <==> domains == []
    ensures d.TooManyDomains? <==> domains != [] && |domains| > MaxBatch
    ensures d.TooManyDomains? ==> d.count == |domains|
    ensures d == MissingCredentials <==> domains != [] && |domains| <= MaxBatch && !hasClient
    ensures d == Declined <==> domains != [] && |domains| <= MaxBatch && hasClient && !confirmed
    ensures d.StartWorker? <==> domains != [] && |domains| <= MaxBatch && hasClient && confirmed
    ensures d.StartWorker? ==> d.domains == domains
  {
    if domains == [] then NoDomains
    else if |domains| > MaxBatch then TooManyDomains(|domains|)
    else if !hasClient then MissingCredentials
    else if !confirmed then Declined
    else StartWorker(domains)
  }

  /** `on_delete`: parse the text, then the checks; only a StartWorker decision starts the worker. */
  method OnDelete(text: string, client: Option<Client>, confirmed: bool) returns (d: Decision)
    ensures d == Validate(Parsed(text), client.Some?, confirmed)
  {
    var domains := ParseDomains(text);
    d := Validate(domains, client.Some?, confirmed);
  }

  /** Ten domains are accepted, eleven are rejected before anything is sent. */
  lemma BatchLimit(ten: seq<string>, eleven: seq<string>, hasClient: bool, confirmed: bool)
    requires |ten| == 10 && |eleven| == 11
    ensures Validate(ten, true, true) == StartWorker(ten)
    ensures Validate(eleven, hasClient, confirmed) == TooManyDomains(11)
  {
  }

  // ---------------------------------------------------------- the worker

  /** The smallest time an item takes, pacing included, in milliseconds. */
  const PacingFloorMs: nat := 1000

  /**
   * What the client calls do for one item: the lookup's result, the
   * deletion's result (used only when a zone is found) and how long the
   * calls take, in milliseconds.
   */
  datatype ItemScript = ItemScript(
    lookup: Result<Option<Zone>, Fault>,
    deletion: Result<(bool, string), Fault>,
    busyMs: nat)

  /** The worker's log lines. */
  datatype LogEntry =
    | LookingUp(index: nat, total: nat, domain: string)
    | NotFoundSkipping
    | FoundDeleting(zoneId: Option<string>)
    | DeletedOk
    | DeleteFailed(reason: string)
    | ApiErrorLogged(message: string)
    | UnexpectedErrorLogged(message: string)
    | AllDone

  /** The log line of a caught exception: CloudflareAPIError first, then any other. */
  function CaughtEntry(f: Fault): LogEntry {
    if f.ApiError? then ApiErrorLogged(f.message) else UnexpectedErrorLogged(f.message)
  }

  /** Whether an item's lookup found a zone. */
  predicate ZoneFound(s: ItemScript) {
    s.lookup.Success? && s.lookup.value.Some?
  }

  /** The line an item's log ends with: the lookup's error, "not found", or the deletion's result or error. */
  function FinalEntry(s: ItemScript): LogEntry {
    match s.lookup
    case Failure(f) => CaughtEntry(f)
    case Success(zone) =>
      if zone.None? then NotFoundSkipping
      else match s.deletion
        case Failure(f) => CaughtEntry(f)
        case Success(v) => if v.0 then DeletedOk else DeleteFailed(v.1)
  }

  /** The log lines of one item: the lookup, the deletion when a zone was found, and how it ended. */
  function ItemLog(index: nat, total: nat, domain: string, s: ItemScript): seq<LogEntry> {
    [LookingUp(index, total, domain)]
    + (if ZoneFound(s) then [FoundDeleting(s.lookup.value.value.id)] else [])
    + [FinalEntry(s)]
  }

  /** Item k's log, as the worker writes it for the k-th domain (numbered from 1). */
  function ItemLines(domains: seq<string>, script: nat -> ItemScript, k: nat): seq<LogEntry>
    requires k < |domains|
  {
    ItemLog(k + 1, |domains|, domains[k], script(k))
  }

  /** The log lines of the first n items. */
  function WorkerLog(domains: seq<string>, script: nat -> ItemScript, n: nat): seq<LogEntry>
    requires n <= |domains|
  {
    if n == 0 then [] else WorkerLog(domains, script, n - 1) + ItemLog(n, |domains|, domains[n - 1], script(n - 1))
  }

  /** The pacing sleep after an item that took `elapsedMs`: up to the floor, or none. */
  function PacingPause(elapsedMs: nat): nat {
    if elapsedMs < PacingFloorMs then PacingFloorMs - elapsedMs else 0
  }

  /** The time from the start of the batch to the start of item n. */
  function Elapsed(script: nat -> ItemScript, n: nat): nat {
    if n == 0 then 0 else Elapsed(script, n - 1) + script(n - 1).busyMs + PacingPause(script(n - 1).busyMs)
  }

  /** `max(total - completed, 0)`. */
  function Remaining(completed: nat, total: nat): nat {
    if total > completed then total - completed else 0
  }

  lemma FloorOfQuotient(a: nat, b: nat)
    requires b > 0
    ensures (a as real / b as real).Floor == a / b
  {
    var q, r := a / b, a % b;
    assert a == q * b + r;
    assert a as real == q as real * b as real + r as real;
    assert a as real / b as real == q as real + r as real / b as real;
    assert 0.0 <= r as real / b as real < 1.0;
  }

  /**
   * The ETA of `_update_progress`, in whole seconds:
   * `int((elapsed / completed) * max(total - completed, 0))`, computed on
   * reals; it is the floor of elapsed × remaining / completed.
   */
  function EtaSeconds(completed: nat, total: nat, elapsedMs: nat): (eta: nat)
    requires completed > 0
    ensures eta == (elapsedMs * Remaining(completed, total)) / (1000 * completed)
    ensures completed >= total ==> eta == 0
  {
    var perItem: real := (elapsedMs as real / 1000.0) / completed as real;
    var x := perItem * Remaining(completed, total) as real;
    var a := elapsedMs * Remaining(completed, total);
    var b := 1000 * completed;
    assert x == a as real / b as real;
    FloorOfQuotient(a, b);
    x.Floor
  }

  /** `time.strftime("%M:%S", time.gmtime(s))`: minutes within the hour and seconds, two digits each. */
  function MinutesSeconds(s: nat): (r: string)
    ensures |r| == 5 && r[2] == ':'
    ensures forall i :: 0 <= i < 5 && i != 2 ==> IsDigit(r[i])
    ensures DigitsValue(r[..2]) == (s / 60) % 60
    ensures DigitsValue(r[3..]) == s % 60
  {
    var m := (s / 60) % 60;
    var sec := s % 60;
    var r := [DigitChar(m / 10), DigitChar(m % 10), ':', DigitChar(sec / 10), DigitChar(sec % 10)];
    assert r[..2] == TwoDigits(m) && r[3..] == TwoDigits(sec);
    TwoDigitsValue(m);
    TwoDigitsValue(sec);
    r
  }

  /** A number below 100 as two decimal digits, with a leading zero when needed. */
  function TwoDigits(d: nat): string
    requires d < 100
  {
    [DigitChar(d / 10), DigitChar(d % 10)]
  }

  lemma TwoDigitsValue(d: nat)
    requires d < 100
    ensures forall i :: 0 <= i < 2 ==> IsDigit(TwoDigits(d)[i])
    ensures DigitsValue(TwoDigits(d)) == d
  {
    var s := TwoDigits(d);
    assert s[..1][..0] == [];
    assert DigitsValue(s[..1]) == d / 10;
    assert s[..|s| - 1] == s[..1];
  }

  /** The progress label of `_update_progress`. */
  function StatusLabel(completed: nat, total: nat, elapsedMs: nat): string {
    if completed > 0 then
      NatToString(completed) + "/" + NatToString(total) + " completed. ETA: "
      + MinutesSeconds(EtaSeconds(completed, total, elapsedMs))
    else "0/" + NatToString(total) + " completed."
  }

  /** A call of `_update_progress` the worker schedules on the UI thread. */
  datatype ProgressCall = ProgressCall(completed: nat, total: nat, elapsedMs: nat)

  /** What `_update_progress` shows: the bar's value and the label. */
  datatype ProgressView = ProgressView(value: nat, status: string)

  function UpdateProgress(call: ProgressCall): (v: ProgressView)
    ensures v.value == call.completed
    ensures call.completed == 0 ==> v.status == "0/" + NatToString(call.total) + " completed."
    ensures call.completed > 0 ==>
      v.status == NatToString(call.completed) + "/" + NatToString(call.total) + " completed. ETA: "
                  + MinutesSeconds(EtaSeconds(call.completed, call.total, call.elapsedMs))
  {
    ProgressView(call.completed, StatusLabel(call.completed, call.total, call.elapsedMs))
  }

  /** Once every item is done the ETA reads 00:00; before the first one the label has no ETA. */
  lemma EtaAtEnds(total: nat, elapsedMs: nat)
    ensures total > 0 ==> StatusLabel(total, total, elapsedMs)
                          == NatToString(total) + "/" + NatToString(total) + " completed. ETA: 00:00"
    ensures StatusLabel(0, total, elapsedMs) == "0/" + NatToString(total) + " completed."
  {
  }

  /**
   * One pass of the worker's loop body up to its `finally` part: the lookup,
   * the deletion when a zone was found, and the handlers that turn a raised
   * error into a log line. The clock advances by the time the calls take.
   */
  method ProcessItem(index: nat, total: nat, domain: string, item: ItemScript, t0: nat)
    returns (entries: seq<LogEntry>, now: nat)
    ensures entries == ItemLog(index, total, domain, item)
    ensures now == t0 + item.busyMs
  {
    entries := [LookingUp(index, total, domain)];
    now := t0 + item.busyMs;
    match item.lookup {
      case Failure(f) =>
        entries := entries + [CaughtEntry(f)];
      case Success(zone) =>
        if zone.None? {
          entries := entries + [NotFoundSkipping];
        } else {
          entries := entries + [FoundDeleting(zone.value.id)];
          match item.deletion {
            case Failure(f) =>
              entries := entries + [CaughtEntry(f)];
            case Success(v) =>
              entries := entries + [if v.0 then DeletedOk else DeleteFailed(v.1)];
          }
        }
    }
  }

  /** The progress notifications the first n items produce, out of `total`. */
  function Progress(script: nat -> ItemScript, total: nat, n: nat): seq<ProgressCall> {
    if n == 0 then []
    else Progress(script, total, n - 1) + [ProgressCall(n, total, Elapsed(script, n - 1) + script(n - 1).busyMs)]
  }

  /** The pacing sleeps after the first n items. */
  function Pauses(script: nat -> ItemScript, n: nat): seq<nat> {
    if n == 0 then [] else Pauses(script, n - 1) + [PacingPause(script(n - 1).busyMs)]
  }

  /**
   * Item k's notification reports k + 1 items done, with the time spent from
   * the start of the batch to the end of item k's calls; item k's sleep tops
   * its calls up to the pacing floor.
   */
  lemma {:induction false} ProgressAndPauses(script: nat -> ItemScript, total: nat, n: nat)
    ensures |Progress(script, total, n)| == n && |Pauses(script, n)| == n
    ensures forall k {:trigger Progress(script, total, n)[k]} :: 0 <= k < n ==>
              Progress(script, total, n)[k] == ProgressCall(k + 1, total, Elapsed(script, k) + script(k).busyMs)
    ensures forall k {:trigger Pauses(script, n)[k]} :: 0 <= k < n ==>
              Pauses(script, n)[k] == PacingPause(script(k).busyMs)
  {
    if n > 0 {
      ProgressAndPauses(script, total, n - 1);
    }
  }

  /** How the worker's specification grows by one item. */
  lemma WorkerStep(domains: seq<string>, script: nat -> ItemScript, i: nat)
    requires i < |domains|
    ensures WorkerLog(domains, script, i + 1) == WorkerLog(domains, script, i) + ItemLog(i + 1, |domains|, domains[i], script(i))
    ensures Progress(script, |domains|, i + 1)
            == Progress(script, |domains|, i) + [ProgressCall(i + 1, |domains|, Elapsed(script, i) + script(i).busyMs)]
    ensures Pauses(script, i + 1) == Pauses(script, i) + [PacingPause(script(i).busyMs)]
    ensures Elapsed(script, i + 1) == Elapsed(script, i) + script(i).busyMs + PacingPause(script(i).busyMs)
  {
  }

  /**
   * `_delete_worker`: each domain in order, a lookup, a deletion only when a
   * zone was found, every exception caught per item, and in the `finally`
   * part the completion count, a progress notification and the pacing sleep.
   * Returns the log, the notifications, each item's pacing sleep (0 when
   * none is made), the final count and the final clock.
   */
  method DeleteWorker(domains: seq<string>, script: nat -> ItemScript, start: nat)
    returns (log: seq<LogEntry>, updates: seq<ProgressCall>, pauses: seq<nat>, completed: nat, now: nat)
    ensures completed == |domains|
    ensures log == WorkerLog(domains, script, |domains|) + [AllDone]
    ensures updates == Progress(script, |domains|, |domains|)
    ensures pauses == Pauses(script, |domains|)
    ensures |updates| == |domains| && forall i :: 0 <= i < |domains| ==> updates[i].completed == i + 1 && updates[i].total == |domains|
    ensures now == start + Elapsed(script, |domains|)
  {
    var total := |domains|;
    log, updates, pauses := [], [], [];
    completed := 0;
    now := start;
    for i := 0 to total
      invariant completed == i
      invariant log == WorkerLog(domains, script, i)
      invariant updates == Progress(script, total, i)
      invariant pauses == Pauses(script, i)
      invariant now == start + Elapsed(script, i)
    {
      WorkerStep(domains, script, i);
      var item := script(i);
      var t0 := now;
      var entries;
      entries, now := ProcessItem(i + 1, total, domains[i], item, now);
      log := log + entries;
      completed := completed + 1;
      updates := updates + [ProgressCall(completed, total, now - start)];
      var elapsed := now - t0;
      var pause := PacingPause(elapsed);
      pauses := pauses + [pause];
      now := now + pause;
    }
    log := log + [AllDone];
    ProgressAndPauses(script, total, total);
  }

  /** Each item takes at least the pacing floor, so n items take at least n seconds. */
  lemma {:induction false} PacedBatchDuration(script: nat -> ItemScript, n: nat)
    ensures Elapsed(script, n) >= PacingFloorMs * n
    ensures forall i :: 0 <= i < n ==> Elapsed(script, i + 1) - Elapsed(script, i) >= PacingFloorMs
  {
    if n > 0 {
      PacedBatchDuration(script, n - 1);
    }
  }

  /** An item done in 200 ms is followed by an 800 ms sleep; one taking 1500 ms by none. */
  lemma PacingExamples()
    ensures PacingPause(200) == 800 && PacingPause(1500) == 0
  {
  }

  // ---------------------------------------------------------- reading the log

  /** The per-domain result of a batch. */
  datatype Outcome = Deleted | NotFound | Failed(reason: string) | Error(reason: string)

  /** The outcome an item's script leads to. */
  function OutcomeOf(s: ItemScript): Outcome {
    match s.lookup
    case Failure(f) => Error(f.message)
    case Success(zone) =>
      if zone.None? then NotFound
      else match s.deletion
        case Failure(f) => Error(f.message)
        case Success(v) => if v.0 then Deleted else Failed(v.1)
  }

  /** The values f picks out of a log, in order. */
  function Project<T>(log: seq<LogEntry>, f: LogEntry -> Option<T>): seq<T> {
    if |log| == 0 then []
    else
      var o := f(log[|log| - 1]);
      Project(log[..|log| - 1], f) + (if o.Some? then [o.value] else [])
  }

  lemma {:induction false} ProjectAppend<T>(a: seq<LogEntry>, b: seq<LogEntry>, f: LogEntry -> Option<T>)
    ensures Project(a + b, f) == Project(a, f) + Project(b, f)
  {
    if b == [] {
      assert a + b == a;
    } else {
      var b' := b[..|b| - 1];
      assert (a + b)[..|a + b| - 1] == a + b';
      assert (a + b)[|a + b| - 1] == b[|b| - 1];
      ProjectAppend(a, b', f);
    }
  }

  /** The lookups a log shows: position and domain. */
  function Visit(e: LogEntry): Option<(nat, string)> {
    if e.LookingUp? then Some((e.index, e.domain)) else None
  }

  /** The deletions a log shows: the zone id passed. */
  function DeleteCall(e: LogEntry): Option<Option<string>> {
    if e.FoundDeleting? then Some(e.zoneId) else None
  }

  /** The terminal line of an item, read as its outcome. */
  function EntryOutcome(e: LogEntry): Option<Outcome> {
    match e
    case NotFoundSkipping => Some(NotFound)
    case DeletedOk => Some(Deleted)
    case DeleteFailed(r) => Some(Failed(r))
    case ApiErrorLogged(m) => Some(Error(m))
    case UnexpectedErrorLogged(m) => Some(Error(m))
    case _ => None
  }

  /** The zone id an item's deletion is called with, if its lookup found a zone. */
  function FoundId(s: ItemScript): seq<Option<string>> {
    if ZoneFound(s) then [s.lookup.value.value.id] else []
  }

  /** What g reads off each of the first n items' scripts, one item after another. */
  function Readings<T>(script: nat -> ItemScript, g: ItemScript -> seq<T>, n: nat): seq<T> {
    if n == 0 then [] else Readings(script, g, n - 1) + g(script(n - 1))
  }

  /** The zone ids of the items among the first n whose lookup found a zone. */
  function FoundIds(script: nat -> ItemScript, n: nat): seq<Option<string>> {
    Readings(script, FoundId, n)
  }

  /** An item's final line records exactly its outcome, and is neither a lookup nor a deletion. */
  lemma FinalEntryOutcome(s: ItemScript)
    ensures EntryOutcome(FinalEntry(s)) == Some(OutcomeOf(s))
    ensures Visit(FinalEntry(s)).None? && DeleteCall(FinalEntry(s)).None?
  {
  }

  /** The value an optional reading contributes to a projection. */
  function Picked<T>(o: Option<T>): seq<T> {
    if o.Some? then [o.value] else []
  }

  lemma ProjectSingle<T>(e: LogEntry, f: LogEntry -> Option<T>)
    ensures Project([e], f) == Picked(f(e))
  {
    assert [e][..0] == [];
  }

  /** Any projection of an item's log reads its lines in order. */
  lemma ItemProjection<T>(index: nat, total: nat, domain: string, s: ItemScript, f: LogEntry -> Option<T>)
    ensures Project(ItemLog(index, total, domain, s), f)
            == Picked(f(LookingUp(index, total, domain)))
               + (if ZoneFound(s) then Picked(f(FoundDeleting(s.lookup.value.value.id))) else [])
               + Picked(f(FinalEntry(s)))
  {
    var first := [LookingUp(index, total, domain)];
    var mid := if ZoneFound(s) then [FoundDeleting(s.lookup.value.value.id)] else [];
    var last := [FinalEntry(s)];
    assert ItemLog(index, total, domain, s) == (first + mid) + last;
    ProjectSingle(first[0], f);
    ProjectSingle(last[0], f);
    if ZoneFound(s) {
      ProjectSingle(mid[0], f);
    } else {
      assert first + mid == first;
    }
    ProjectAppend(first, mid, f);
    ProjectAppend(first + mid, last, f);
  }

  /** Any projection of the worker's log reads the items' logs in order. */
  lemma WorkerProjectionStep<T>(domains: seq<string>, script: nat -> ItemScript, n: nat, f: LogEntry -> Option<T>)
    requires 0 < n <= |domains|
    ensures Project(WorkerLog(domains, script, n), f)
            == Project(WorkerLog(domains, script, n - 1), f) + Project(ItemLines(domains, script, n - 1), f)
  {
    ProjectAppend(WorkerLog(domains, script, n - 1), ItemLines(domains, script, n - 1), f);
  }

  /** The lookups the first n items should show: position (from 1) and domain. */
  function Numbered(domains: seq<string>, n: nat): (r: seq<(nat, string)>)
    requires n <= |domains|
    ensures |r| == n && forall k :: 0 <= k < n ==> r[k] == (k + 1, domains[k])
  {
    if n == 0 then [] else Numbered(domains, n - 1) + [(n, domains[n - 1])]
  }

  /** The outcomes the first n items' scripts lead to. */
  function Outcomes(script: nat -> ItemScript, n: nat): (r: seq<Outcome>)
    ensures |r| == n && forall k :: 0 <= k < n ==> r[k] == OutcomeOf(script(k))
  {
    if n == 0 then [] else Outcomes(script, n - 1) + [OutcomeOf(script(n - 1))]
  }

  lemma ItemVisit(domains: seq<string>, script: nat -> ItemScript, k: nat)
    requires k < |domains|
    ensures Project(ItemLines(domains, script, k), Visit) == [(k + 1, domains[k])]
  {
    FinalEntryOutcome(script(k));
    ItemProjection(k + 1, |domains|, domains[k], script(k), Visit);
  }

  lemma ItemOutcome(domains: seq<string>, script: nat -> ItemScript, k: nat)
    requires k < |domains|
    ensures Project(ItemLines(domains, script, k), EntryOutcome) == [OutcomeOf(script(k))]
  {
    FinalEntryOutcome(script(k));
    ItemProjection(k + 1, |domains|, domains[k], script(k), EntryOutcome);
  }

  lemma ItemDeletes(domains: seq<string>, script: nat -> ItemScript, k: nat)
    requires k < |domains|
    ensures Project(ItemLines(domains, script, k), DeleteCall) == FoundId(script(k))
  {
    FinalEntryOutcome(script(k));
    ItemProjection(k + 1, |domains|, domains[k], script(k), DeleteCall);
  }

  /** The worker looks up every domain exactly once, in list order, numbered from 1. */
  lemma {:induction false} VisitsInOrder(domains: seq<string>, script: nat -> ItemScript, n: nat)
    requires n <= |domains|
    ensures Project(WorkerLog(domains, script, n), Visit) == Numbered(domains, n)
  {
    if n > 0 {
      VisitsInOrder(domains, script, n - 1);
      WorkerProjectionStep(domains, script, n, Visit);
      ItemVisit(domains, script, n - 1);
    }
  }

  /**
   * When every one of the first n items' lines projects under f to what g
   * reads off its script, the whole log projects to those readings in order.
   */
  lemma {:induction false} ProjectByItems<T>(domains: seq<string>, script: nat -> ItemScript, n: nat,
                                             f: LogEntry -> Option<T>, g: ItemScript -> seq<T>)
    requires n <= |domains|
    requires forall k {:trigger ItemLines(domains, script, k)} :: 0 <= k < n ==> Project(ItemLines(domains, script, k), f) == g(script(k))
    ensures Project(WorkerLog(domains, script, n), f) == Readings(script, g, n)
  {
    if n > 0 {
      ProjectByItems(domains, script, n - 1, f, g);
      WorkerProjectionStep(domains, script, n, f);
    }
  }

  function OutcomeLine(s: ItemScript): seq<Outcome> {
    [OutcomeOf(s)]
  }

  lemma {:induction false} OutcomeReadings(script: nat -> ItemScript, n: nat)
    ensures Readings(script, OutcomeLine, n) == Outcomes(script, n)
  {
    if n > 0 {
      OutcomeReadings(script, n - 1);
    }
  }

  /** Every domain gets exactly one outcome, in list order, whatever its calls did. */
  lemma OneOutcomePerDomain(domains: seq<string>, script: nat -> ItemScript, n: nat)
    requires n <= |domains|
    ensures Project(WorkerLog(domains, script, n), EntryOutcome) == Outcomes(script, n)
  {
    forall k | 0 <= k < n
      ensures Project(ItemLines(domains, script, k), EntryOutcome) == OutcomeLine(script(k))
    {
      ItemOutcome(domains, script, k);
    }
    ProjectByItems(domains, script, n, EntryOutcome, OutcomeLine);
    OutcomeReadings(script, n);
  }

  /** A deletion is attempted for exactly the items whose lookup found a zone, in order. */
  lemma DeletesOnlyFoundZones(domains: seq<string>, script: nat -> ItemScript, n: nat)
    requires n <= |domains|
    ensures Project(WorkerLog(domains, script, n), DeleteCall) == FoundIds(script, n)
  {
    forall k | 0 <= k < n
      ensures Project(ItemLines(domains, script, k), DeleteCall) == FoundId(script(k))
    {
      ItemDeletes(domains, script, k);
    }
    ProjectByItems(domains, script, n, DeleteCall, FoundId);
  }

  /**
   * A lookup that raises does not stop the batch: whichever items raise,
   * the log still shows every domain's lookup and one outcome each.
   */
  lemma FailureIsolation(domains: seq<string>, script: nat -> ItemScript, i: nat)
    requires i < |domains| && script(i).lookup.Failure?
    ensures var log := WorkerLog(domains, script, |domains|);
            |Project(log, Visit)| == |Project(log, EntryOutcome)| == |domains|
            && Project(log, EntryOutcome)[i] == Error(script(i).lookup.error.message)
  {
    VisitsInOrder(domains, script, |domains|);
    OneOutcomePerDomain(domains, script, |domains|);
  }
}
