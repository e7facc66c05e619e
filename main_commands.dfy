/** The `/species` chat command (detection, argument parsing into a seed),
    the default-settings quick generation seed, and the generation
    statistics counters. Host settings and the current scene are parameters. */
module MainCommands {
  import opened JsValues
  import opened Strings
  import opened Config
  import opened Seeds

  const CommandPrefix: string := "/species"

  /** The chat hook's view of a message: lower-cased, then trimmed. */
  function Normalized(messageText: string): string {
    Trim(Lower(messageText))
  }

  /** The arguments of a `/species` command, or None when the message is not
      one: the space-separated tokens after the first. */
  function DetectCommand(messageText: string): (r: Option<seq<string>>)
    ensures r.Some? <==> StartsWith(Normalized(messageText), CommandPrefix)
  {
    var command := Normalized(messageText);
    if StartsWith(command, CommandPrefix) then Some(Split(command, ' ')[1..]) else None
  }

  /** The arguments are exactly the tokens after the first: putting the first
      token back and joining with spaces gives the normalised command, and no
      argument contains a space. The arguments are lower case. */
  lemma DetectCommandTokens(messageText: string)
    ensures var r := DetectCommand(messageText);
      var command := Normalized(messageText);
      var tokens := Split(command, ' ');
      r.Some? ==>
        && tokens[1..] == r.value && Join(tokens[..1] + r.value, " ") == command
        && (forall i :: 0 <= i < |r.value| ==> ' ' !in r.value[i])
  {
    var command := Normalized(messageText);
    var tokens := Split(command, ' ');
    if StartsWith(command, CommandPrefix) {
      assert tokens[..1] + tokens[1..] == tokens;
      forall i | 0 <= i < |tokens[1..]| ensures ' ' !in tokens[1..][i] {
        assert tokens[1..][i] == tokens[i + 1];
      }
    }
  }

  /** The effect of one (key, value) pair on the seed; `value` is undefined
      for a key in the last position of an odd-length list. */
  function ApplyPair(seed: Seed, key: string, value: Option<string>): Seed {
    if key == "role" then
      (if value.Some? && value.value in Roles then seed.(role := value) else seed)
    else if key == "setting" then seed.(setting := value)
    else if key == "speed" then
      (if value.Some? && value.value in Speeds then seed.(speed := value) else seed)
    else seed
  }

  /** The pairs from index `i` on (`i` stepping by two). */
  function ParseFrom(args: seq<string>, i: nat, seed: Seed): Seed
    decreases |args| - i
  {
    if i >= |args| then seed
    else ParseFrom(args, i + 2, ApplyPair(seed, args[i], At(args, i + 1)))
  }

  /** The seed `handleChatCommand(args)` builds. */
  function ParseArgs(args: seq<string>): Seed {
    ParseFrom(args, 0, EmptySeed)
  }

  /** The argument loop of `handleChatCommand(args)`. */
  method ParseChatArgs(args: seq<string>) returns (seed: Seed)
    ensures seed == ParseArgs(args)
    ensures seed.role.Some? ==> seed.role.value in Roles
    ensures seed.speed.Some? ==> seed.speed.value in Speeds
    ensures seed.notes.None? && seed.autoExport.None?
  {
    seed := EmptySeed;
    var i := 0;
    while i < |args|
      invariant ParseFrom(args, i, seed) == ParseArgs(args)
      invariant seed.role.Some? ==> seed.role.value in Roles
      invariant seed.speed.Some? ==> seed.speed.value in Speeds
      invariant seed.notes.None? && seed.autoExport.None?
      decreases |args| - i
    {
      var key := args[i];
      var value := At(args, i + 1);
      if key == "role" {
        if value.Some? && value.value in Roles {
          seed := seed.(role := value);
        }
      } else if key == "setting" {
        seed := seed.(setting := value);
      } else if key == "speed" {
        if value.Some? && value.value in Speeds {
          seed := seed.(speed := value);
        }
      }
      i := i + 2;
    }
  }

  /** Parsing never sets an invalid role or speed, nor notes or autoExport. */
  lemma {:induction false} ParseKeepsValid(args: seq<string>, i: nat, seed: Seed)
    requires seed.role.Some? ==> seed.role.value in Roles
    requires seed.speed.Some? ==> seed.speed.value in Speeds
    ensures var r := ParseFrom(args, i, seed);
      && (r.role.Some? ==> r.role.value in Roles)
      && (r.speed.Some? ==> r.speed.value in Speeds)
      && r.notes == seed.notes && r.autoExport == seed.autoExport
    decreases |args| - i
  {
    if i < |args| {
      ParseKeepsValid(args, i + 2, ApplyPair(seed, args[i], At(args, i + 1)));
    }
  }

  /** Appending a pair to an even-length argument list applies it last, so a
      later pair overrides an earlier one with the same key. */
  lemma {:induction false} ParseSnocPair(args: seq<string>, i: nat, seed: Seed, key: string, value: string)
    requires i <= |args| && (|args| - i) % 2 == 0
    ensures ParseFrom(args + [key, value], i, seed) == ApplyPair(ParseFrom(args, i, seed), key, Some(value))
    decreases |args| - i
  {
    var extended := args + [key, value];
    if i < |args| {
      assert extended[i] == args[i];
      assert At(extended, i + 1) == At(args, i + 1);
      ParseSnocPair(args, i + 2, ApplyPair(seed, args[i], At(args, i + 1)), key, value);
    } else {
      assert extended[i] == key && At(extended, i + 1) == Some(value);
      assert ParseFrom(extended, i + 2, ApplyPair(seed, key, Some(value))) == ApplyPair(seed, key, Some(value));
    }
  }

  /** Role and speed are kept only when valid, a setting always, and any
      other key changes nothing. */
  lemma ApplyPairEffect(seed: Seed, key: string, value: string)
    ensures key == "role" ==>
      ApplyPair(seed, key, Some(value)).role == (if value in [Neutral, Ally, Enemy, Mysterious] then Some(value) else seed.role)
    ensures key == "speed" ==>
      ApplyPair(seed, key, Some(value)).speed == (if value in [Fast, Detailed] then Some(value) else seed.speed)
    ensures key == "setting" ==> ApplyPair(seed, key, Some(value)) == seed.(setting := Some(value))
    ensures key !in ["role", "setting", "speed"] ==> ApplyPair(seed, key, Some(value)) == seed
  {
  }

  /** What a chat command does: quick generation with the default settings
      when it has no arguments, otherwise generation from the parsed seed. */
  datatype ChatAction = QuickGeneration | GenerateFrom(seed: Seed)

  function HandleChatCommand(args: seq<string>): (a: ChatAction)
    ensures a.QuickGeneration? <==> args == []
  {
    if |args| == 0 then QuickGeneration else GenerateFrom(ParseArgs(args))
  }

  /** A bare `/species` (after normalisation) triggers quick generation, and a
      `/species role ally` command generates an ally. */
  lemma ChatCommandExamples()
    ensures HandleChatCommand(Split(CommandPrefix, ' ')[1..]) == QuickGeneration
    ensures HandleChatCommand(["role", Ally]).seed.role == Some(Ally)
    ensures HandleChatCommand(["speed", "slow"]).seed.speed == None
  {
    assert ' ' !in CommandPrefix;
    assert Split(CommandPrefix, ' ') == [CommandPrefix];
    var ally := ["role", Ally];
    assert At(ally, 1) == Some(Ally) && Ally in Roles;
    assert ParseArgs(ally) == ParseFrom(ally, 2, EmptySeed.(role := Some(Ally)));
    var slow := ["speed", "slow"];
    assert At(slow, 1) == Some("slow") && "slow" !in Speeds;
    assert ParseArgs(slow) == ParseFrom(slow, 2, EmptySeed);
  }

  /** The seed of the scene-controls `quickGenerate()`: the configured
      defaults, the current scene's name or 'Unknown location'. */
  function QuickGenerateSeed(defaultRole: string, defaultSpeed: string, sceneName: Option<string>): (s: Seed)
    ensures s.role == Some(defaultRole) && s.speed == Some(defaultSpeed)
    ensures s.setting == Some(if Truthy(sceneName) then sceneName.value else "Unknown location")
  {
    Seed(Some(defaultRole), Some(OrElse(sceneName, "Unknown location")), Some(defaultSpeed), None, None)
  }

  // ---------------------------------------------------------------- statistics

  /** `stats.averageTime` after the n-th generation took `t`. */
  function NextAverage(average: real, n: nat, t: real): real
    requires n >= 1
  {
    (average * ((n - 1) as real) + t) / (n as real)
  }

  function SumOf(ts: seq<real>): real {
    if ts == [] then 0.0 else SumOf(ts[..|ts| - 1]) + ts[|ts| - 1]
  }

  /** The mean generation time, 0 before any generation. */
  function Mean(ts: seq<real>): real {
    if ts == [] then 0.0 else SumOf(ts) / (|ts| as real)
  }

  /** The running-average update keeps `averageTime` the mean of all the
      recorded times, starting from an initial average of 0. */
  lemma RunningAverageIsMean(ts: seq<real>, t: real)
    ensures NextAverage(Mean(ts), |ts| + 1, t) == Mean(ts + [t])
  {
    var n := |ts| as real;
    assert (ts + [t])[..|ts|] == ts;
    assert SumOf(ts + [t]) == SumOf(ts) + t;
    if ts != [] {
      assert Mean(ts) * n == SumOf(ts);
    }
  }

  /** The statistics value kept in the `generationStats` setting. */
  class GenerationStats {
    var totalGenerated: nat
    var averageTime: real
    var favoriteArchetypes: map<string, nat>

    constructor ()
      ensures totalGenerated == 0 && averageTime == 0.0 && favoriteArchetypes == map[]
    {
      totalGenerated := 0;
      averageTime := 0.0;
      favoriteArchetypes := map[];
    }

    /** `updateGenerationStats(species, generationTime)` */
    method UpdateGenerationStats(archetype: string, generationTime: real)
      modifies this
      ensures totalGenerated == old(totalGenerated) + 1
      ensures averageTime == NextAverage(old(averageTime), totalGenerated, generationTime)
      ensures favoriteArchetypes == old(favoriteArchetypes)[archetype :=
        (if archetype in old(favoriteArchetypes) then old(favoriteArchetypes)[archetype] else 0) + 1]
      ensures forall a :: a in old(favoriteArchetypes) && a != archetype ==>
        a in favoriteArchetypes && favoriteArchetypes[a] == old(favoriteArchetypes)[a]
    {
      totalGenerated := totalGenerated + 1;
      averageTime := NextAverage(averageTime, totalGenerated, generationTime);
      var previous := if archetype in favoriteArchetypes then favoriteArchetypes[archetype] else 0;
      favoriteArchetypes := favoriteArchetypes[archetype := previous + 1];
    }
  }
}
