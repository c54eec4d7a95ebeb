/** The alert classifier and renderer of the `notification` package: five kinds
    of exception, each built from the filtered problem records of one poll
    cycle, and rendered as a header line followed by one line per record. */
module Notification {
  import opened Wrappers
  import opened Types
  import opened Format

  /** The shape every validator exception stores per record. */
  datatype ValRecord = ValRecord(chainName: string, blockHeight: Int64, moniker: string)

  /** The per-record templates, one per `fmt.Sprintf` format string. Each
      contract says where every interpolated value sits in the line and that
      the line ends with the format string's fixed tail, which holds its one
      trailing newline. `proportion` is the configured `alert.proportion`
      threshold as `%f` renders it. */
  function JailedLine(chainName: string, moniker: string): (r: string)
    ensures |r| == |chainName| + |moniker| + 33
    ensures r[..4] == "The " && r[4..4 + |chainName|] == chainName
    ensures r[4 + |chainName|..6 + |chainName|] == "' "
    ensures r[6 + |chainName|..6 + |chainName| + |moniker|] == moniker
    ensures r[6 + |chainName| + |moniker|..] == " validator has been jailed\n"
  {
    "The " + chainName + "' " + moniker + " validator has been jailed\n"
  }

  function InactiveLine(chainName: string, moniker: string): (r: string)
    ensures |r| == |chainName| + |moniker| + 29
    ensures r[..4] == "The " && r[4..4 + |chainName|] == chainName
    ensures r[4 + |chainName|..6 + |chainName|] == "' "
    ensures r[6 + |chainName|..6 + |chainName| + |moniker|] == moniker
    ensures r[6 + |chainName| + |moniker|..] == " validator is Inactive\n"
  {
    "The " + chainName + "' " + moniker + " validator is Inactive\n"
  }

  function SyncLine(chainName: string, moniker: string, proportion: string, blockHeight: int): string {
    "The " + chainName + "' " + moniker
    + " validator has not signed for 5 consecutive blocks or the last 100 blocks without signature rate reaches "
    + proportion + " at block height of " + Decimal(blockHeight) + ". \n"
  }

  /** A missed-signature line is the pieces of its format string (x0, x2, x4,
      x6, x8) with the four values in between, each at its place. */
  lemma SyncLineLayout(chainName: string, moniker: string, proportion: string, blockHeight: int)
    ensures var x0, x2, x4, x6, x8 := "The ", "' ",
        " validator has not signed for 5 consecutive blocks or the last 100 blocks without signature rate reaches ",
        " at block height of ", ". \n";
      var r, h := SyncLine(chainName, moniker, proportion, blockHeight), Decimal(blockHeight);
      var o1 := |x0|; var o2 := o1 + |chainName|; var o3 := o2 + |x2|; var o4 := o3 + |moniker|;
      var o5 := o4 + |x4|; var o6 := o5 + |proportion|; var o7 := o6 + |x6|; var o8 := o7 + |h|;
      && |r| == o8 + |x8|
      && r[..o1] == x0 && r[o1..o2] == chainName && r[o2..o3] == x2 && r[o3..o4] == moniker
      && r[o4..o5] == x4 && r[o5..o6] == proportion && r[o6..o7] == x6 && r[o7..o8] == h && r[o8..] == x8
  {
    SlicesOf9("The ", chainName, "' ", moniker,
      " validator has not signed for 5 consecutive blocks or the last 100 blocks without signature rate reaches ",
      proportion, " at block height of ", Decimal(blockHeight), ". \n");
  }

  function RankingLine(chainName: string, moniker: string): (r: string)
    ensures |r| == |chainName| + |moniker| + 91
    ensures r[..4] == "The " && r[4..4 + |chainName|] == chainName
    ensures r[4 + |chainName|..6 + |chainName|] == "' "
    ensures r[6 + |chainName|..6 + |chainName| + |moniker|] == moniker
    ensures r[6 + |chainName| + |moniker|..] == " validator ranking has exceeded the ranking threshold, please add a delegate in time\n"
  {
    "The " + chainName + "' " + moniker
    + " validator ranking has exceeded the ranking threshold, please add a delegate in time\n"
  }

  /** The proposal block: five labelled lines and two blank ones. */
  function ProposalLine(p: Proposal): string {
    "The " + p.chainName + " has a new proposal\nThe proposal id is: " + Decimal(p.proposalId)
    + " \nThe voting start time is: " + p.votingStartTime
    + " \nThe acceptance time is: " + p.votingEndTime
    + " \nThe proposal content is: " + p.description + " \n\n\n"
  }

  /** A proposal block is the pieces of its format string (x0, x2, ..., x10)
      with the five values in between, each at its place. */
  lemma ProposalLineLayout(p: Proposal)
    ensures var x0, x2, x4, x6, x8, x10 := "The ", " has a new proposal\nThe proposal id is: ",
        " \nThe voting start time is: ", " \nThe acceptance time is: ", " \nThe proposal content is: ", " \n\n\n";
      var r, id := ProposalLine(p), Decimal(p.proposalId);
      var o1 := |x0|; var o2 := o1 + |p.chainName|; var o3 := o2 + |x2|; var o4 := o3 + |id|;
      var o5 := o4 + |x4|; var o6 := o5 + |p.votingStartTime|; var o7 := o6 + |x6|;
      var o8 := o7 + |p.votingEndTime|; var o9 := o8 + |x8|; var o10 := o9 + |p.description|;
      && |r| == o10 + |x10|
      && r[..o1] == x0 && r[o1..o2] == p.chainName && r[o2..o3] == x2 && r[o3..o4] == id && r[o4..o5] == x4
      && r[o5..o6] == p.votingStartTime && r[o6..o7] == x6 && r[o7..o8] == p.votingEndTime && r[o8..o9] == x8
      && r[o9..o10] == p.description && r[o10..] == x10
  {
    SlicesOf11("The ", p.chainName, " has a new proposal\nThe proposal id is: ", Decimal(p.proposalId),
      " \nThe voting start time is: ", p.votingStartTime, " \nThe acceptance time is: ", p.votingEndTime,
      " \nThe proposal content is: ", p.description, " \n\n\n");
  }

  /** Every template names the chain right after its opening word "The ". */
  predicate NamesChainAt4(line: string, chainName: string) {
    |line| > 4 + |chainName| && line[4..4 + |chainName|] == chainName
  }

  lemma SyncLineNamesChain(chainName: string, moniker: string, proportion: string, blockHeight: int)
    ensures NamesChainAt4(SyncLine(chainName, moniker, proportion, blockHeight), chainName)
  {
    SyncLineLayout(chainName, moniker, proportion, blockHeight);
  }

  lemma ProposalLineNamesChain(p: Proposal)
    ensures NamesChainAt4(ProposalLine(p), p.chainName)
  {
    ProposalLineLayout(p);
  }

  /** The `Event` interface as a tagged union, one constructor per exception kind. */
  datatype Event =
    | ValJailedException(validators: seq<ValRecord>)
    | ValisActiveException(validators: seq<ValRecord>)
    | SyncException(validators: seq<ValRecord>)
    | ProposalException(proposals: seq<Proposal>)
    | ValisRankingException(validators: seq<ValRecord>)
  {
    /** The header line of the kind's message. */
    function Name(): (r: string)
      ensures |r| > 0 && r[|r| - 1] == '\n'
    {
      match this
      case ValJailedException(_) => "Validator Jailed Exception\n"
      case ValisActiveException(_) => "Validator InActive Exception\n"
      case SyncException(_) => "Sync Exception \n"
      case ProposalException(_) => "proposal Exception \n"
      case ValisRankingException(_) => "Validator Ranking Exception\n"
    }

    /** The number of records the exception holds. */
    function Size(): nat {
      if ProposalException? then |proposals| else |validators|
    }

    function IsEmpty(): (r: bool)
      ensures ProposalException? ==> (r <==> proposals == [])
      ensures !ProposalException? ==> (r <==> validators == [])
    {
      Size() == 0
    }

    /** The chain record `i` belongs to. */
    function ChainOf(i: nat): string
      requires i < Size()
    {
      if ProposalException? then proposals[i].chainName else validators[i].chainName
    }

    /** The line the message gives record `i`: every template names the
        record's chain right after its opening word. */
    function Line(i: nat, proportion: string): (r: string)
      requires i < Size()
    {
      match this
      case ValJailedException(vs) => JailedLine(vs[i].chainName, vs[i].moniker)
      case ValisActiveException(vs) => InactiveLine(vs[i].chainName, vs[i].moniker)
      case SyncException(vs) => SyncLine(vs[i].chainName, vs[i].moniker, proportion, vs[i].blockHeight)
      case ProposalException(ps) => ProposalLine(ps[i])
      case ValisRankingException(vs) => RankingLine(vs[i].chainName, vs[i].moniker)
    }

    /** Every template names the record's chain right after its opening word. */
    lemma LineNamesChain(i: nat, proportion: string)
      requires i < Size()
      ensures NamesChainAt4(Line(i, proportion), ChainOf(i))
    {
      match this
      case ValJailedException(vs) =>
      case ValisActiveException(vs) =>
      case SyncException(vs) =>
        SyncLineNamesChain(vs[i].chainName, vs[i].moniker, proportion, vs[i].blockHeight);
      case ProposalException(ps) =>
        ProposalLineNamesChain(ps[i]);
      case ValisRankingException(vs) =>
    }

    function Lines(proportion: string): (ls: seq<string>)
      ensures |ls| == Size()
      ensures forall k :: 0 <= k < |ls| ==> ls[k] == Line(k, proportion)
    {
      seq(Size(), i requires 0 <= i < Size() => Line(i, proportion))
    }

    /** What `Message` returns: nothing for an empty exception, otherwise the
        header followed by the records' lines in record order. */
    function Render(proportion: string): (r: string)
      ensures IsEmpty() <==> r == ""
      ensures !IsEmpty() ==> Name() <= r
    {
      RenderedEmptyIff(Name(), Lines(proportion));
      if !IsEmpty() then RenderedStartsWithHeader(Name(), Lines(proportion)); Rendered(Name(), Lines(proportion))
      else Rendered(Name(), Lines(proportion))
    }

    /** Where line `i` starts in a non-empty exception's message. */
    function LineStart(i: nat, proportion: string): nat
      requires i <= Size()
    {
      Offset(Name(), Lines(proportion), i)
    }

    method Message(proportion: string) returns (msg: string)
      ensures msg == Render(proportion)
    {
      msg := "";
      if !IsEmpty() {
        msg := Name();
        var lines := Lines(proportion);
        var i := 0;
        while i < Size()
          invariant 0 <= i <= Size()
          invariant msg == Name() + Concat(lines[..i])
        {
          var line := Line(i, proportion);
          ConcatStep(lines, i);
          AppendAssoc(Name(), Concat(lines[..i]), line);
          msg := msg + line;
          i := i + 1;
        }
        assert lines[..i] == lines;
      }
    }
  }

  /** A non-empty exception's message is tiled by the header and the records'
      lines: line `i` occupies [LineStart(i), LineStart(i + 1)), the first
      line starts right after the header and the last line ends where the
      message ends. */
  lemma RenderLineAt(e: Event, proportion: string, i: nat)
    requires i < e.Size()
    ensures e.LineStart(0, proportion) == |e.Name()|
    ensures e.LineStart(e.Size(), proportion) == |e.Render(proportion)|
    ensures e.LineStart(i + 1, proportion) == e.LineStart(i, proportion) + |e.Lines(proportion)[i]|
    ensures e.LineStart(i + 1, proportion) <= e.LineStart(e.Size(), proportion)
    ensures e.Render(proportion)[e.LineStart(i, proportion)..e.LineStart(i + 1, proportion)] == e.Lines(proportion)[i]
  {
    RenderedLineAt(e.Name(), e.Lines(proportion), i);
  }

  /** The threshold only shows in the missed-signature message. */
  lemma ProportionOnlyInSync(e: Event, p: string, q: string)
    requires !e.SyncException?
    ensures e.Render(p) == e.Render(q)
  {
    assert e.Lines(p) == e.Lines(q);
  }

  /** The five headers are pairwise distinct, so a message names its kind. */
  lemma NamesDistinct(e: Event, f: Event)
    ensures e.Name() == f.Name() <==>
      (e.ValJailedException? && f.ValJailedException?) ||
      (e.ValisActiveException? && f.ValisActiveException?) ||
      (e.SyncException? && f.SyncException?) ||
      (e.ProposalException? && f.ProposalException?) ||
      (e.ValisRankingException? && f.ValisRankingException?)
  {
  }

  method ParseValJailedException(valJaileds: seq<ValIsJail>) returns (r: Option<Event>)
    ensures r.None? <==> |valJaileds| == 0
    ensures r.Some? ==> r.value.ValJailedException? && !r.value.IsEmpty()
    ensures r.Some? ==> |r.value.validators| == |valJaileds|
    ensures r.Some? ==> forall i :: 0 <= i < |valJaileds| ==>
      r.value.validators[i] == ValRecord(valJaileds[i].chainName, 0, valJaileds[i].moniker)
  {
    if |valJaileds| == 0 {
      return None;
    }
    var validators: seq<ValRecord> := [];
    for i := 0 to |valJaileds|
      invariant |validators| == i
      invariant forall k :: 0 <= k < i ==> validators[k] == ValRecord(valJaileds[k].chainName, 0, valJaileds[k].moniker)
    {
      validators := validators + [ValRecord(valJaileds[i].chainName, 0, valJaileds[i].moniker)];
    }
    r := Some(ValJailedException(validators));
  }

  method ParseValisActiveException(valisActive: seq<ValIsActive>) returns (r: Option<Event>)
    ensures r.None? <==> |valisActive| == 0
    ensures r.Some? ==> r.value.ValisActiveException? && !r.value.IsEmpty()
    ensures r.Some? ==> |r.value.validators| == |valisActive|
    ensures r.Some? ==> forall i :: 0 <= i < |valisActive| ==>
      r.value.validators[i] == ValRecord(valisActive[i].chainName, 0, valisActive[i].moniker)
  {
    if |valisActive| == 0 {
      return None;
    }
    var validators: seq<ValRecord> := [];
    for i := 0 to |valisActive|
      invariant |validators| == i
      invariant forall k :: 0 <= k < i ==> validators[k] == ValRecord(valisActive[k].chainName, 0, valisActive[k].moniker)
    {
      validators := validators + [ValRecord(valisActive[i].chainName, 0, valisActive[i].moniker)];
    }
    r := Some(ValisActiveException(validators));
  }

  /** The copy of a proposal the proposal exception keeps: the five fields its
      message shows, every other field at its zero value. */
  function Trimmed(p: Proposal): (c: Proposal)
    ensures c.chainName == p.chainName && c.proposalId == p.proposalId
    ensures c.votingStartTime == p.votingStartTime && c.votingEndTime == p.votingEndTime
    ensures c.description == p.description
    ensures c.moniker == "" && c.operatorAddr == "" && c.status == 0
  {
    Proposal(p.chainName, p.proposalId, p.votingStartTime, p.votingEndTime, p.description, "", "", 0)
  }

  method ParseProposalException(proposals: seq<Proposal>) returns (r: Option<Event>)
    ensures r.None? <==> |proposals| == 0
    ensures r.Some? ==> r.value.ProposalException? && !r.value.IsEmpty()
    ensures r.Some? ==> |r.value.proposals| == |proposals|
    ensures r.Some? ==> forall i :: 0 <= i < |proposals| ==>
      var p, c := proposals[i], r.value.proposals[i];
      && c.chainName == p.chainName && c.proposalId == p.proposalId
      && c.votingStartTime == p.votingStartTime && c.votingEndTime == p.votingEndTime
      && c.description == p.description
      && c.moniker == "" && c.operatorAddr == "" && c.status == 0
  {
    if |proposals| == 0 {
      return None;
    }
    var kept: seq<Proposal> := [];
    for i := 0 to |proposals|
      invariant |kept| == i
      invariant forall k :: 0 <= k < i ==> kept[k] == Trimmed(proposals[k])
    {
      kept := kept + [Trimmed(proposals[i])];
    }
    r := Some(ProposalException(kept));
  }

  method ParseSyncException(missedSign: seq<ValSignMissed>) returns (r: Option<Event>)
    ensures r.None? <==> |missedSign| == 0
    ensures r.Some? ==> r.value.SyncException? && !r.value.IsEmpty()
    ensures r.Some? ==> |r.value.validators| == |missedSign|
    ensures r.Some? ==> forall i :: 0 <= i < |missedSign| ==>
      r.value.validators[i] == ValRecord(missedSign[i].chainName, missedSign[i].blockHeight, missedSign[i].operatorAddr)
  {
    if |missedSign| == 0 {
      return None;
    }
    var validators: seq<ValRecord> := [];
    for i := 0 to |missedSign|
      invariant |validators| == i
      invariant forall k :: 0 <= k < i ==>
        validators[k] == ValRecord(missedSign[k].chainName, missedSign[k].blockHeight, missedSign[k].operatorAddr)
    {
      // `int64(BlockHeight)` keeps the value of a 64-bit Go `int`.
      var height: Int64 := missedSign[i].blockHeight;
      validators := validators + [ValRecord(missedSign[i].chainName, height, missedSign[i].operatorAddr)];
    }
    r := Some(SyncException(validators));
  }

  method ParseValisRankingException(valsRanking: seq<ValRanking>) returns (r: Option<Event>)
    ensures r.None? <==> |valsRanking| == 0
    ensures r.Some? ==> r.value.ValisRankingException? && !r.value.IsEmpty()
    ensures r.Some? ==> |r.value.validators| == |valsRanking|
    ensures r.Some? ==> forall i :: 0 <= i < |valsRanking| ==>
      r.value.validators[i] == ValRecord(valsRanking[i].chainName, valsRanking[i].blockHeight, valsRanking[i].moniker)
  {
    if |valsRanking| == 0 {
      return None;
    }
    var validators: seq<ValRecord> := [];
    for i := 0 to |valsRanking|
      invariant |validators| == i
      invariant forall k :: 0 <= k < i ==>
        validators[k] == ValRecord(valsRanking[k].chainName, valsRanking[k].blockHeight, valsRanking[k].moniker)
    {
      validators := validators + [ValRecord(valsRanking[i].chainName, valsRanking[i].blockHeight, valsRanking[i].moniker)];
    }
    r := Some(ValisRankingException(validators));
  }

  /** A sync exception built from missed-signature records shows, on line `i`,
      record `i`'s operator address (not its moniker), the threshold and the
      record's block height. */
  lemma SyncLineShowsOperatorAddr(missedSign: seq<ValSignMissed>, e: Event, proportion: string, i: nat)
    requires e.SyncException? && |e.validators| == |missedSign|
    requires forall k :: 0 <= k < |missedSign| ==>
      e.validators[k] == ValRecord(missedSign[k].chainName, missedSign[k].blockHeight, missedSign[k].operatorAddr)
    requires i < |missedSign|
    ensures e.LineStart(i, proportion) <= e.LineStart(i + 1, proportion) <= |e.Render(proportion)|
    ensures e.Render(proportion)[e.LineStart(i, proportion)..e.LineStart(i + 1, proportion)]
      == SyncLine(missedSign[i].chainName, missedSign[i].operatorAddr, proportion, missedSign[i].blockHeight)
  {
    RenderLineAt(e, proportion, i);
    var v := e.validators[i];
    assert v == ValRecord(missedSign[i].chainName, missedSign[i].blockHeight, missedSign[i].operatorAddr);
    assert e.Line(i, proportion) == SyncLine(v.chainName, v.moniker, proportion, v.blockHeight);
  }

  /** Trimming loses nothing the proposal message shows: the stored copies
      render exactly as the original proposals would. */
  lemma TrimmedRendersAsOriginal(proposals: seq<Proposal>, e: Event, proportion: string)
    requires e.ProposalException? && |e.proposals| == |proposals| > 0
    requires forall k :: 0 <= k < |proposals| ==> e.proposals[k] == Trimmed(proposals[k])
    ensures e.Render(proportion) == "proposal Exception \n" + Concat(seq(|proposals|, k requires 0 <= k < |proposals| => ProposalLine(proposals[k])))
  {
    assert e.Lines(proportion) == seq(|proposals|, k requires 0 <= k < |proposals| => ProposalLine(proposals[k]));
  }

  lemma JailedLineCosmos()
    ensures JailedLine("cosmos", "X") == "The cosmos' X validator has been jailed\n"
  {
  }

  lemma JailedHeader(line: string)
    requires line == "The cosmos' X validator has been jailed\n"
    ensures "Validator Jailed Exception\n" + line
      == "Validator Jailed Exception\nThe cosmos' X validator has been jailed\n"
  {
  }

  /** One jailed validator on chain "cosmos" with moniker "X", parsed and rendered. */
  method JailedScenario(proportion: string) returns (msg: string)
    ensures msg == "Validator Jailed Exception\nThe cosmos' X validator has been jailed\n"
  {
    var r := ParseValJailedException([ValIsJail("cosmos", "X")]);
    var e := r.value;
    msg := e.Message(proportion);
    var lines := e.Lines(proportion);
    assert lines == [lines[0]];
    RenderedSingle(e.Name(), lines[0]);
    assert e.validators[0] == ValRecord("cosmos", 0, "X");
    JailedLineCosmos();
    JailedHeader(JailedLine("cosmos", "X"));
  }
}
