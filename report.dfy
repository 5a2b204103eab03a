/** The flat label-to-value dictionaries both scripts build, and the
    key-by-key copy loop (`for key_k in d: output[key_k] = d[key_k]`) with
    which each merges a per-device dictionary into its aggregate. Labels are
    kept abstract here: each script has its own label type. */
module Report {
  import opened Wrappers

  /** A value stored in a report dictionary. */
  datatype Value =
    | Text(s: string)                              // a formatted `str`
    | Number(n: int)                               // a Python `int` stored as is
    | Flag(b: bool)                                // `bool(x)` of an int attribute
    | Ratio(num: int, den: int, unit: string)      // `'{} unit'.format(num / den)`, float division
    | Sizes(dims: seq<int>)                        // a list of ints stored as is

  type Report<L> = map<L, Value>

  /** `1024**2`, the divisor of the MiB figures. */
  const MiB := 1048576

  /** Copies every entry of `info` into `output`, one key at a time:
      every key of `info` ends holding `info`'s value (last write wins), every
      other key of `output` is left as it was, and nothing else is added. */
  method Update<L>(output: Report<L>, info: Report<L>) returns (merged: Report<L>)
    ensures merged == output + info
  {
    merged := output;
    var pending := info.Keys;
    while pending != {}
      invariant pending <= info.Keys
      invariant merged.Keys == output.Keys + (info.Keys - pending)
      invariant forall k :: k in info && k !in pending ==> merged[k] == info[k]
      invariant forall k :: k in output && (k !in info || k in pending) ==> merged[k] == output[k]
      decreases pending
    {
      var k :| k in pending;
      merged := merged[k := info[k]];
      pending := pending - {k};
    }
  }

  /** What a merge loop leaves behind after the reports `outcomes`, taken in
      order, have been copied into `initial`: the merged dictionary, or the
      exception of the first outcome that is one (the loop stops there). */
  function MergeAll<L, E>(initial: Report<L>, outcomes: seq<Result<Report<L>, E>>): Result<Report<L>, E>
    decreases |outcomes|
  {
    if outcomes == [] then Ok(initial)
    else
      var output :- MergeAll(initial, outcomes[..|outcomes| - 1]);
      var info :- outcomes[|outcomes| - 1];
      Ok(output + info)
  }

  /** The merge succeeds exactly when every outcome is a report; otherwise it
      ends with the exception of the first outcome that is not. */
  lemma {:induction false} MergeAllOutcome<L, E>(initial: Report<L>, outcomes: seq<Result<Report<L>, E>>)
    ensures var r := MergeAll(initial, outcomes);
            && (r.Ok? <==> forall i :: 0 <= i < |outcomes| ==> outcomes[i].Ok?)
            && (r.Err? ==> exists i :: 0 <= i < |outcomes| && outcomes[i] == Err(r.error)
                             && forall j :: 0 <= j < i ==> outcomes[j].Ok?)
    decreases |outcomes|
  {
    if outcomes != [] {
      var prefix := outcomes[..|outcomes| - 1];
      MergeAllOutcome(initial, prefix);
      assert forall i :: 0 <= i < |prefix| ==> prefix[i] == outcomes[i];
    }
  }

  /** A loop that has merged `n` reports and meets an exception at outcome
      `n` ends with exactly that exception. */
  lemma MergeAllStops<L, E>(initial: Report<L>, outcomes: seq<Result<Report<L>, E>>, n: nat)
    requires n < |outcomes|
    requires MergeAll(initial, outcomes[..n]).Ok?
    requires outcomes[n].Err?
    ensures MergeAll(initial, outcomes) == outcomes[n]
  {
    MergeAllOutcome(initial, outcomes[..n]);
    MergeAllOutcome(initial, outcomes);
    assert forall j :: 0 <= j < n ==> outcomes[..n][j] == outcomes[j];
  }

  /** A loop that has merged `n` reports and meets a report at outcome `n`
      has merged `n + 1` once it copies that report in. */
  lemma MergeAllStep<L, E>(initial: Report<L>, outcomes: seq<Result<Report<L>, E>>, n: nat, output: Report<L>)
    requires n < |outcomes|
    requires MergeAll(initial, outcomes[..n]) == Ok(output)
    requires outcomes[n].Ok?
    ensures MergeAll(initial, outcomes[..n + 1]) == Ok(output + outcomes[n].value)
  {
    assert outcomes[..n + 1][..n] == outcomes[..n];
  }

  /** When every report has the same keys, later reports overwrite earlier
      ones completely: the result is `initial` updated with the last report
      only, and `initial` itself when there is none. */
  lemma {:induction false} MergeAllLastWins<L, E>(initial: Report<L>, outcomes: seq<Result<Report<L>, E>>,
                                                   keys: set<L>)
    requires forall i :: 0 <= i < |outcomes| ==> outcomes[i].Ok? && outcomes[i].value.Keys == keys
    ensures MergeAll(initial, outcomes)
              == Ok(if outcomes == [] then initial else initial + outcomes[|outcomes| - 1].value)
    decreases |outcomes|
  {
    if outcomes != [] {
      var prefix := outcomes[..|outcomes| - 1];
      var last := outcomes[|outcomes| - 1].value;
      assert forall i :: 0 <= i < |prefix| ==> prefix[i] == outcomes[i];
      MergeAllLastWins(initial, prefix, keys);
      if prefix != [] {
        var before := prefix[|prefix| - 1].value;
        assert before.Keys == last.Keys;
        assert initial + before + last == initial + last;
      }
    }
  }

  /** When every report has the keys `keys`, the merged dictionary has the
      keys of `initial` and, if there was any report, `keys`; entries of
      `initial` under other keys are kept. */
  lemma MergeAllKeys<L, E>(initial: Report<L>, outcomes: seq<Result<Report<L>, E>>, keys: set<L>)
    requires forall i :: 0 <= i < |outcomes| ==> outcomes[i].Ok? && outcomes[i].value.Keys == keys
    ensures MergeAll(initial, outcomes).Ok?
    ensures MergeAll(initial, outcomes).value.Keys == initial.Keys + (if outcomes == [] then {} else keys)
    ensures forall k :: k in initial && k !in keys ==> MergeAll(initial, outcomes).value[k] == initial[k]
  {
    MergeAllLastWins(initial, outcomes, keys);
  }

  /** The dictionary after the reports `reports`, taken in order, have been
      copied into `initial` key by key. */
  function MergeReports<L>(initial: Report<L>, reports: seq<Report<L>>): Report<L>
    decreases |reports|
  {
    if reports == [] then initial
    else MergeReports(initial, reports[..|reports| - 1]) + reports[|reports| - 1]
  }

  /** Copying report `n` into the merge of the first `n` reports gives the
      merge of the first `n + 1`. */
  lemma MergeReportsStep<L>(initial: Report<L>, reports: seq<Report<L>>, n: nat)
    requires n < |reports|
    ensures MergeReports(initial, reports[..n + 1]) == MergeReports(initial, reports[..n]) + reports[n]
  {
    assert reports[..n + 1][..n] == reports[..n];
  }

  /** A key no report holds keeps its presence and value from `initial`. */
  lemma {:induction false} MergeReportsUntouched<L>(initial: Report<L>, reports: seq<Report<L>>, k: L)
    requires forall i :: 0 <= i < |reports| ==> k !in reports[i]
    ensures (k in MergeReports(initial, reports)) == (k in initial)
    ensures k in initial ==> MergeReports(initial, reports)[k] == initial[k]
    decreases |reports|
  {
    if reports != [] {
      MergeReportsUntouched(initial, reports[..|reports| - 1], k);
    }
  }

  /** A key ends with the value of the last report that holds it. */
  lemma {:induction false} MergeReportsLastWriter<L>(initial: Report<L>, reports: seq<Report<L>>, k: L, i: nat)
    requires i < |reports| && k in reports[i]
    requires forall j :: i < j < |reports| ==> k !in reports[j]
    ensures k in MergeReports(initial, reports)
    ensures MergeReports(initial, reports)[k] == reports[i][k]
    decreases |reports|
  {
    if i < |reports| - 1 {
      MergeReportsLastWriter(initial, reports[..|reports| - 1], k, i);
    }
  }

  /** The dictionary after rounds of reports: each round is a sequence of
      reports copied in order, and the rounds follow one another. */
  function MergeRounds<L>(initial: Report<L>, rounds: seq<seq<Report<L>>>): Report<L>
    decreases |rounds|
  {
    if rounds == [] then initial
    else MergeReports(MergeRounds(initial, rounds[..|rounds| - 1]), rounds[|rounds| - 1])
  }

  /** Merging round `n` into the merge of the first `n` rounds gives the
      merge of the first `n + 1`. */
  lemma MergeRoundsStep<L>(initial: Report<L>, rounds: seq<seq<Report<L>>>, n: nat)
    requires n < |rounds|
    ensures MergeRounds(initial, rounds[..n + 1]) == MergeReports(MergeRounds(initial, rounds[..n]), rounds[n])
  {
    assert rounds[..n + 1][..n] == rounds[..n];
  }

  /** A key no report of any round holds keeps its presence and value from
      `initial`. */
  lemma {:induction false} MergeRoundsUntouched<L>(initial: Report<L>, rounds: seq<seq<Report<L>>>, k: L)
    requires forall r, i :: 0 <= r < |rounds| && 0 <= i < |rounds[r]| ==> k !in rounds[r][i]
    ensures (k in MergeRounds(initial, rounds)) == (k in initial)
    ensures k in initial ==> MergeRounds(initial, rounds)[k] == initial[k]
    decreases |rounds|
  {
    if rounds != [] {
      var prefix := rounds[..|rounds| - 1];
      assert forall r :: 0 <= r < |prefix| ==> prefix[r] == rounds[r];
      MergeRoundsUntouched(initial, prefix, k);
      MergeReportsUntouched(MergeRounds(initial, prefix), rounds[|rounds| - 1], k);
    }
  }

  /** A key ends with the value of the last report that holds it: report `i`
      of round `r`, when no later report of that round and no report of a
      later round holds it. */
  lemma {:induction false} MergeRoundsLastWriter<L>(initial: Report<L>, rounds: seq<seq<Report<L>>>, k: L,
                                                     r: nat, i: nat)
    requires r < |rounds| && i < |rounds[r]| && k in rounds[r][i]
    requires forall i' :: i < i' < |rounds[r]| ==> k !in rounds[r][i']
    requires forall r', i' :: r < r' < |rounds| && 0 <= i' < |rounds[r']| ==> k !in rounds[r'][i']
    ensures k in MergeRounds(initial, rounds)
    ensures MergeRounds(initial, rounds)[k] == rounds[r][i][k]
    decreases |rounds|
  {
    var prefix := rounds[..|rounds| - 1];
    if r == |rounds| - 1 {
      MergeReportsLastWriter(MergeRounds(initial, prefix), rounds[r], k, i);
    } else {
      assert forall r' :: 0 <= r' < |prefix| ==> prefix[r'] == rounds[r'];
      MergeRoundsLastWriter(initial, prefix, k, r, i);
      MergeReportsUntouched(MergeRounds(initial, prefix), rounds[|rounds| - 1], k);
    }
  }
}
