/** The Weasel program's engine: the class whose methods run the loops of
    the source, each proved to compute the matching function of WeaselSpec.
    The static fields darwin and darwinScore are fields of the one engine
    object; the target and the alphabet are the constants of WeaselSpec.
 */
module Weasel {
  import opened WeaselSpec

  class Weasel {
    /** The 100 slots of one generation, filled in place each generation. */
    const selectionGeneration: array<string>
    /** The current champion (static in the source). */
    var darwin: string
    /** The score recorded at the last update of scoreGeneration (static in the source). */
    var darwinScore: int

    /** The static darwinScore starts at 0; darwin has no value until the
        seed is drawn, modelled as the empty string. */
    constructor ()
      ensures fresh(selectionGeneration) && selectionGeneration.Length == PopulationSize
      ensures darwin == "" && darwinScore == 0
    {
      selectionGeneration := new string[PopulationSize];
      darwin := "";
      darwinScore := 0;
    }

    /** scoreString: one pass over the 28 positions, counting matches. */
    method ScoreString(gen: string) returns (matched: int)
      requires Length <= |gen|
      ensures matched == Score(gen)
      ensures 0 <= matched <= Length
    {
      matched := 0;
      for i := 0 to Length
        invariant matched == MatchCount(gen, i)
      {
        if gen[i] == Target[i] {
          matched := matched + 1;
        }
      }
    }

    /** makeCopy: the copy is grown one character at a time. */
    method MakeCopy(str: string, d: Draws) returns (copy: string)
      requires Length <= |str| && ValidDraws(d)
      ensures copy == Mutant(str, d)
      ensures IsCandidate(str) ==> IsCandidate(copy)
    {
      copy := "";
      for i := 0 to Length
        invariant copy == Mutant(str, d)[..i]
      {
        if PercentChance(MutationPercent, d.chance[i]) {
          copy := copy + [str[i]];
        } else {
          copy := copy + [RandomChar(d.picks[i])];
        }
      }
      if IsCandidate(str) {
        MutantIsCandidate(str, d);
      }
    }

    /** getRandomGeneration: 28 alphabet draws, appended in order. */
    method GetRandomGeneration(picks: seq<int>) returns (generation: string)
      requires ValidPicks(picks)
      ensures generation == RandomString(picks)
      ensures IsCandidate(generation)
    {
      generation := "";
      for i := 0 to Length
        invariant generation == RandomString(picks)[..i]
      {
        generation := generation + [RandomChar(picks[i])];
      }
    }

    /** scoreGeneration: keeps the last slot whose score beat bestIndex and
        records that score in darwinScore. */
    method ScoreGeneration(generation: array<string>) returns (best: string)
      requires PopulationSize <= generation.Length
      requires ScorablePopulation(generation[..PopulationSize])
      modifies this`darwinScore
      ensures State(best, darwinScore) == Champion(generation[..PopulationSize], old(darwinScore))
    {
      ghost var pop := generation[..PopulationSize];
      var bestIndex := 0;
      for i := 0 to PopulationSize
        invariant 0 <= bestIndex < PopulationSize
        invariant SelectFrom(pop, i, Selection(bestIndex, darwinScore)) == Select(pop, old(darwinScore))
      {
        var score := ScoreString(generation[i]);
        if score > bestIndex {
          bestIndex := i;
          darwinScore := score;
        }
      }
      best := generation[bestIndex];
    }

    /** getDarwinGeneration: slot 0 is the parent, slots 1..99 its copies,
        then the generation is scored. */
    method GetDarwinGeneration(initial: string, copies: seq<Draws>) returns (champion: string)
      requires selectionGeneration.Length == PopulationSize
      requires Length <= |initial| && ValidCopies(copies)
      modifies selectionGeneration, this`darwinScore
      ensures selectionGeneration[..] == Population(initial, copies)
      ensures State(champion, darwinScore) == Step(State(initial, old(darwinScore)), copies)
    {
      ghost var pop := Population(initial, copies);
      selectionGeneration[0] := initial;
      for i := 1 to PopulationSize
        invariant forall j :: 0 <= j < i ==> selectionGeneration[j] == pop[j]
        invariant darwinScore == old(darwinScore)
      {
        selectionGeneration[i] := MakeCopy(initial, copies[i - 1]);
      }
      assert selectionGeneration[..PopulationSize] == selectionGeneration[..] == pop;
      champion := ScoreGeneration(selectionGeneration);
    }

    /** The seed of main: darwin := getRandomGeneration(). */
    method Seed(picks: seq<int>)
      requires ValidPicks(picks)
      modifies this`darwin
      ensures darwin == RandomString(picks) && IsCandidate(darwin)
    {
      darwin := GetRandomGeneration(picks);
    }

    /** The while loop of main, run until the champion is the target or the
        schedule of draws is used up; count is the number of generations bred.
        selectionGeneration is scratch space here: its final contents are
        not stated, as nothing reads the array after the loop. */
    method Evolve(schedule: seq<seq<Draws>>) returns (count: int)
      requires selectionGeneration.Length == PopulationSize
      requires Length <= |darwin| && ValidSchedule(schedule)
      modifies selectionGeneration, this`darwin, this`darwinScore
      ensures Outcome(State(darwin, darwinScore), count) == Evolution(old(State(darwin, darwinScore)), schedule)
    {
      ghost var final := Evolution(State(darwin, darwinScore), schedule);
      count := 0;
      while darwin != Target && count < |schedule|
        invariant 0 <= count <= |schedule| && Length <= |darwin|
        invariant Evolution(State(darwin, darwinScore), schedule[count..]) == Outcome(final.state, final.count - count)
        decreases |schedule| - count
      {
        assert schedule[count..][1..] == schedule[count + 1..];
        assert ValidSchedule(schedule[count + 1..]);
        darwin := GetDarwinGeneration(darwin, schedule[count]);
        count := count + 1;
      }
    }

    /** The whole program with its draws given: a new engine, the seed, and
        the main loop.  The final champion is a candidate, it is the target
        unless the draws ran out, and its reported score is its own. */
    static method Simulate(seedPicks: seq<int>, schedule: seq<seq<Draws>>) returns (count: int, champion: string, score: int)
      requires ValidPicks(seedPicks) && ValidSchedule(schedule)
      ensures Outcome(State(champion, score), count) == Evolution(State(RandomString(seedPicks), 0), schedule)
      ensures IsCandidate(champion)
      ensures champion == Target || count == |schedule|
      ensures count > 0 ==> score == Score(champion)
    {
      var w := new Weasel();
      w.Seed(seedPicks);
      count := w.Evolve(schedule);
      champion, score := w.darwin, w.darwinScore;
      EvolutionFromSeed(State(RandomString(seedPicks), 0), schedule);
    }
  }
}
