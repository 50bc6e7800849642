/** The text matching the manager uses to decide whether a failed admin
    command is an "already done" no-op or a real error, isolated in one
    adapter. Lower-casing is the ASCII case mapping. */
module Messages {
  import opened Admin

  /** What one admin command amounted to. */
  datatype Outcome = Applied | AlreadyApplied | Failed(reason: string)

  function LowerChar(c: char): (r: char)
    ensures 'A' <= c <= 'Z' ==> r as int == c as int + 32
    ensures !('A' <= c <= 'Z') ==> r == c
    ensures !('A' <= r <= 'Z')
  {
    if 'A' <= c <= 'Z' then (c as int + 32) as char else c
  }

  /** `str.lower()` on ASCII text. */
  function Lower(s: string): string {
    seq(|s|, i requires 0 <= i < |s| => LowerChar(s[i]))
  }

  /** Lower-casing keeps the length and lower-cases each character. */
  lemma LowerChars(s: string)
    ensures |Lower(s)| == |s|
    ensures forall i :: 0 <= i < |s| ==> Lower(s)[i] == LowerChar(s[i])
  {
  }

  predicate IsLower(s: string) {
    forall i :: 0 <= i < |s| ==> !('A' <= s[i] <= 'Z')
  }

  lemma LowerIsLower(s: string)
    ensures IsLower(Lower(s))
    ensures IsLower(s) ==> Lower(s) == s
  {
  }

  /** `sub` occurs in `s` at position `i`. */
  predicate OccursAt(s: string, sub: string, i: nat) {
    i + |sub| <= |s| && s[i..i + |sub|] == sub
  }

  /** Python's `sub in s`. */
  function Contains(s: string, sub: string): bool
    decreases |s|
  {
    if |sub| > |s| then false
    else if s[..|sub|] == sub then true
    else Contains(s[1..], sub)
  }

  /** `Contains` holds exactly when `sub` occurs somewhere in `s`. */
  lemma {:induction false} ContainsOccurs(s: string, sub: string)
    ensures Contains(s, sub) <==> exists i: nat :: OccursAt(s, sub, i)
    decreases |s|
  {
    if |sub| > |s| {
      assert forall i: nat :: !OccursAt(s, sub, i);
    } else if s[..|sub|] == sub {
      assert OccursAt(s, sub, 0);
    } else {
      ContainsOccurs(s[1..], sub);
      assert forall i: nat :: OccursAt(s[1..], sub, i) <==> OccursAt(s, sub, i + 1) by {
        forall i: nat ensures OccursAt(s[1..], sub, i) <==> OccursAt(s, sub, i + 1) {
          if i + |sub| <= |s[1..]| {
            assert s[1..][i..i + |sub|] == s[i + 1..i + 1 + |sub|];
          }
        }
      }
      if Contains(s, sub) {
        var i: nat :| OccursAt(s[1..], sub, i);
        assert OccursAt(s, sub, i + 1);
      }
      if exists i: nat :: OccursAt(s, sub, i) {
        var i: nat :| OccursAt(s, sub, i);
        assert i != 0;
        assert OccursAt(s[1..], sub, i - 1);
      }
    }
  }

  /** The lower-cased message contains one of the phrases. */
  predicate MentionsAny(msg: string, phrases: seq<string>)
    decreases |phrases|
  {
    |phrases| > 0 && (Contains(Lower(msg), phrases[0]) || MentionsAny(msg, phrases[1..]))
  }

  /** The message mentions a phrase exactly when its lower-cased text
      contains one of them. */
  lemma {:induction false} MentionsAnyPhrase(msg: string, phrases: seq<string>)
    ensures MentionsAny(msg, phrases) <==> exists k :: 0 <= k < |phrases| && Contains(Lower(msg), phrases[k])
    decreases |phrases|
  {
    if |phrases| > 0 {
      MentionsAnyPhrase(msg, phrases[1..]);
      assert forall k :: 0 < k < |phrases| ==> phrases[k] == phrases[1..][k - 1];
      if exists k :: 0 <= k < |phrases| && Contains(Lower(msg), phrases[k]) {
        var k :| 0 <= k < |phrases| && Contains(Lower(msg), phrases[k]);
        if k > 0 {
          assert Contains(Lower(msg), phrases[1..][k - 1]);
        }
      }
    }
  }

  /** The adapter: a success is `Applied`; a failure whose lower-cased text
      contains one of `phrases` is `AlreadyApplied`; any other failure is
      `Failed`, keeping the original text as the reason. */
  function Classify(phrases: seq<string>, r: CmdResult): Outcome {
    match r
    case Ok => Applied
    case Err(msg) => if MentionsAny(msg, phrases) then AlreadyApplied else Failed(msg)
  }

  /** The three outcomes of the adapter, each in both directions. */
  lemma ClassifyCases(phrases: seq<string>, r: CmdResult)
    ensures Classify(phrases, r).Applied? <==> r.Ok?
    ensures Classify(phrases, r).AlreadyApplied? <==> r.Err? && MentionsAny(r.msg, phrases)
    ensures Classify(phrases, r).Failed? <==> r.Err? && !MentionsAny(r.msg, phrases)
    ensures Classify(phrases, r).Failed? ==> Classify(phrases, r).reason == r.msg
  {
  }

  /** The phrases that make a failure of each command a no-op. */
  function NoOpPhrases(cmd: Command): seq<string> {
    match cmd
    case AddShardToZone(_, _) => ["already", "duplicate"]
    case EnableSharding(_) => ["already enabled"]
    case ShardCollection(_, _) => ["already sharded"]
    case MovePrimary(_, _) => []
    case UpdateZoneKeyRange(_, _, _, _) => []
    case RemoveShardFromZone(_, _) => ["not in zone"]
    case RemoveZone(_) => ["not found"]
  }

  /** What issuing `cmd` amounts to, given which commands fail. */
  function CommandOutcome(faults: map<Command, string>, cmd: Command): Outcome {
    Classify(NoOpPhrases(cmd), Respond(faults, cmd))
  }

  /** A command is applied exactly when it is not faulted; a real failure
      carries the fault's message. */
  lemma CommandOutcomeCases(faults: map<Command, string>, cmd: Command)
    ensures CommandOutcome(faults, cmd).Applied? <==> cmd !in faults
    ensures CommandOutcome(faults, cmd).Failed? ==> cmd in faults && CommandOutcome(faults, cmd).reason == faults[cmd]
  {
  }

  /** `movePrimary` and range installation treat every failure as a failure. */
  lemma NoNoOpForPrimaryOrRange(faults: map<Command, string>, cmd: Command)
    requires cmd.MovePrimary? || cmd.UpdateZoneKeyRange?
    ensures CommandOutcome(faults, cmd).Failed? <==> cmd in faults
  {
  }

  /** Matching ignores the case of the message: the phrases are lower case. */
  lemma {:induction false} ClassifyIgnoresCase(phrases: seq<string>, msg: string)
    ensures Classify(phrases, Err(msg)).AlreadyApplied? == Classify(phrases, Err(Lower(msg))).AlreadyApplied?
  {
    LowerIsLower(Lower(msg));
    MentionsAnyPhrase(msg, phrases);
    MentionsAnyPhrase(Lower(msg), phrases);
  }

  /** A message shaped like the server's duplicate-association reply,
      in any case, is matched by the phrase "already". */
  lemma {:induction false} AlreadyInZoneIsNoOp()
    ensures Classify(NoOpPhrases(AddShardToZone("shard00", "region1")), Err("Shard ALREADY in zone")) == AlreadyApplied
  {
    var m := Lower("Shard ALREADY in zone");
    assert m[6..13] == "already";
    assert OccursAt(m, "already", 6);
    ContainsOccurs(m, "already");
    assert Contains(m, NoOpPhrases(AddShardToZone("shard00", "region1"))[0]);
  }

  /** An "already enabled" reply, in any case, is a no-op for `enableSharding`. */
  lemma {:induction false} AlreadyEnabledIsNoOp()
    ensures Classify(NoOpPhrases(EnableSharding("app_region1")), Err("Sharding Already Enabled")) == AlreadyApplied
  {
    var m := Lower("Sharding Already Enabled");
    assert m[9..24] == "already enabled";
    assert OccursAt(m, "already enabled", 9);
    ContainsOccurs(m, "already enabled");
    assert Contains(m, NoOpPhrases(EnableSharding("app_region1"))[0]);
  }
}
