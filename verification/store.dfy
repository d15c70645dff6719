/**
 * The in-memory database of lib/store.ts: two JavaScript `Map`s (agents and
 * stories by id) with their insertion order, the operations that read and
 * write them, and the theme matcher that ranks the stored agents.
 */
module Store {
  import opened Wrappers
  import opened Records
  import opened Text
  import opened Sorting

  /** `order` lists every key of `keys` exactly once: the iteration order of a JavaScript `Map`. */
  ghost predicate IsOrderOf(order: seq<string>, keys: set<string>)
  {
    && (forall i, j :: 0 <= i < j < |order| ==> order[i] != order[j])
    && (forall k :: k in keys <==> k in order)
  }

  /** `Array.from(m.values())`: the values of `m` in the order of their keys. */
  function ValuesInOrder<V>(order: seq<string>, m: map<string, V>): (r: seq<V>)
    requires forall k :: k in order ==> k in m
    ensures |r| == |order|
    ensures forall i :: 0 <= i < |order| ==> r[i] == m[order[i]]
  {
    seq(|order|, i requires 0 <= i < |order| => m[order[i]])
  }

  /** The sort key of `getAllStories`: newest first. */
  function NewestFirst(s: Story): int
  {
    -s.createdAt
  }

  /** A stored agent together with the score the matcher gave it. */
  datatype Scored = Scored(agent: Agent, score: int)

  /** The sort key of the matcher: highest score first. */
  function HighestFirst(x: Scored): int
  {
    -x.score
  }

  /** A word and a tag are related when either contains the other. */
  predicate Related(tag: string, word: string)
  {
    Contains(tag, word) || Contains(word, tag)
  }

  /** How many of the tags are related to the word. */
  function TagHits(tags: seq<string>, word: string): nat
  {
    if tags == [] then 0
    else TagHits(tags[..|tags| - 1], word) + (if Related(tags[|tags| - 1], word) then 1 else 0)
  }

  /** What one word adds to an agent's score: nothing for a word shorter than two characters, otherwise 3 per related tag and 1 if the memory text contains it. */
  function WordScore(word: string, tags: seq<string>, memory: string): nat
  {
    if |word| < 2 then 0
    else 3 * TagHits(tags, word) + (if Contains(memory, word) then 1 else 0)
  }

  /** What a list of words adds to an agent's score. */
  function Score(words: seq<string>, tags: seq<string>, memory: string): nat
  {
    if words == [] then 0
    else Score(words[..|words| - 1], tags, memory) + WordScore(words[|words| - 1], tags, memory)
  }

  /** Scores add up over a split list of words, so the order of the words does not matter to the total. */
  lemma {:induction false} ScoreAppend(a: seq<string>, b: seq<string>, tags: seq<string>, memory: string)
    ensures Score(a + b, tags, memory) == Score(a, tags, memory) + Score(b, tags, memory)
  {
    if b == [] {
      assert a + b == a;
    } else {
      var b' := b[..|b| - 1];
      ScoreAppend(a, b', tags, memory);
      assert (a + b)[..|a + b| - 1] == a + b';
    }
  }

  /** The words of two characters or more, in order. */
  function LongWords(words: seq<string>): (r: seq<string>)
    ensures forall i :: 0 <= i < |r| ==> |r[i]| >= 2
  {
    if words == [] then []
    else LongWords(words[..|words| - 1]) + (if |words[|words| - 1]| >= 2 then [words[|words| - 1]] else [])
  }

  /** Words shorter than two characters never count: scoring only the long words gives the same score. */
  lemma {:induction false} ScoreIgnoresShortWords(words: seq<string>, tags: seq<string>, memory: string)
    ensures Score(LongWords(words), tags, memory) == Score(words, tags, memory)
  {
    if words != [] {
      var w := words[|words| - 1];
      var front := words[..|words| - 1];
      ScoreIgnoresShortWords(front, tags, memory);
      if |w| >= 2 {
        ScoreAppend(LongWords(front), [w], tags, memory);
        assert [w][..0] == [];
      } else {
        assert LongWords(words) == LongWords(front);
      }
    }
  }

  /** The lower-cased words of the theme and description, as the matcher splits them. */
  function ThemeWords(theme: string, description: string): seq<string>
  {
    Words(Lower(theme + " " + description))
  }

  /** An agent's tags, lower-cased. */
  function Tags(a: Agent): (r: seq<string>)
    ensures |r| == |a.shades|
  {
    seq(|a.shades|, i requires 0 <= i < |a.shades| => Lower(a.shades[i]))
  }

  /** An agent's memory excerpts joined by spaces, lower-cased. */
  function Memory(a: Agent): string
  {
    Lower(Join(a.memorySnippets, " "))
  }

  /** The score the matcher gives an agent: 1 plus what the words add. */
  function ScoreOf(words: seq<string>, a: Agent): (r: int)
    ensures r >= 1
  {
    1 + Score(words, Tags(a), Memory(a))
  }

  /** The stored agents other than the initiator, in store order. */
  function Candidates(all: seq<Agent>, initiatorId: string): (r: seq<Agent>)
    ensures forall a :: a in r <==> a in all && a.id != initiatorId
  {
    if all == [] then []
    else (if all[0].id != initiatorId then [all[0]] else []) + Candidates(all[1..], initiatorId)
  }

  /** Each candidate with its score, in store order. */
  function ScoredCandidates(all: seq<Agent>, words: seq<string>, initiatorId: string): (r: seq<Scored>)
    ensures var c := Candidates(all, initiatorId);
            |r| == |c| && forall i :: 0 <= i < |c| ==> r[i] == Scored(c[i], ScoreOf(words, c[i]))
  {
    var c := Candidates(all, initiatorId);
    seq(|c|, i requires 0 <= i < |c| => Scored(c[i], ScoreOf(words, c[i])))
  }

  /** The scored candidates, highest score first, ties in store order. */
  function Ranking(all: seq<Agent>, words: seq<string>, initiatorId: string): seq<Scored>
  {
    SortByKey(ScoredCandidates(all, words, initiatorId), HighestFirst)
  }

  /** `slice(0, m)` on a list of length `n`: the end index it keeps up to, a negative `m` counting from the end. */
  function SliceEnd(n: nat, m: int): (e: nat)
    ensures 0 <= m <= n ==> e == m
    ensures m >= n ==> e == n
    ensures m < 0 && n + m >= 0 ==> e == n + m
    ensures m < 0 && n + m < 0 ==> e == 0
  {
    if m >= 0 then (if m < n then m else n)
    else if n + m > 0 then n + m else 0
  }

  /** What `matchAgentsForTheme` returns for the given store contents. */
  function Matches(all: seq<Agent>, theme: string, description: string, initiatorId: string, maxAgents: int): seq<Agent>
  {
    if Candidates(all, initiatorId) == [] then []
    else
      var ranked := Ranking(all, ThemeWords(theme, description), initiatorId);
      var top := ranked[..SliceEnd(|ranked|, maxAgents)];
      seq(|top|, i requires 0 <= i < |top| => top[i].agent)
  }

  /**
   * The ranking is the candidates re-ordered: by non-increasing score, agents
   * with equal scores in store order, and the matches are its first entries.
   */
  lemma RankingOrdered(all: seq<Agent>, theme: string, description: string, initiatorId: string, maxAgents: int)
    ensures var words := ThemeWords(theme, description);
            var ranked := Ranking(all, words, initiatorId);
            var scored := ScoredCandidates(all, words, initiatorId);
            && multiset(ranked) == multiset(scored)
            && (forall i, j :: 0 <= i < j < |ranked| ==> ranked[i].score >= ranked[j].score)
            && (forall k :: WithKey(ranked, HighestFirst, k) == WithKey(scored, HighestFirst, k))
            && var m := Matches(all, theme, description, initiatorId, maxAgents);
               |m| == SliceEnd(|ranked|, maxAgents)
               && forall i :: 0 <= i < |m| ==> m[i] == ranked[i].agent
  {
    var words := ThemeWords(theme, description);
    var ranked := Ranking(all, words, initiatorId);
    var scored := ScoredCandidates(all, words, initiatorId);
    forall i, j | 0 <= i < j < |ranked| ensures ranked[i].score >= ranked[j].score {
      assert HighestFirst(ranked[i]) <= HighestFirst(ranked[j]);
    }
    forall k ensures WithKey(ranked, HighestFirst, k) == WithKey(scored, HighestFirst, k) {
      SortByKeyStable(scored, HighestFirst, k);
    }
  }

  class Database {
    var agents: map<string, Agent>
    var agentOrder: seq<string>
    var stories: map<string, Story>
    var storyOrder: seq<string>
    /** Every `updateStory` call made so far, in order: what a poller could have observed. */
    ghost var updates: seq<(string, Patch)>

    /** Both maps have an insertion order and every record is stored under its own id. */
    ghost predicate Valid()
      reads this
    {
      && IsOrderOf(agentOrder, agents.Keys)
      && IsOrderOf(storyOrder, stories.Keys)
      && (forall k :: k in agents ==> agents[k].id == k)
      && (forall k :: k in stories ==> stories[k].id == k)
    }

    constructor ()
      ensures Valid()
      ensures agents == map[] && agentOrder == []
      ensures stories == map[] && storyOrder == []
      ensures updates == []
    {
      agents, agentOrder := map[], [];
      stories, storyOrder := map[], [];
      updates := [];
    }

    /** `getAgent`: the agent stored under `id`, if any. */
    function GetAgent(id: string): (r: Option<Agent>)
      reads this
      ensures r.Some? <==> id in agents
      ensures r.Some? ==> r.value == agents[id]
    {
      if id in agents then Some(agents[id]) else None
    }

    /** `upsertAgent`: inserts or replaces by id; a replaced agent keeps its place in the order. */
    method UpsertAgent(a: Agent)
      requires Valid()
      modifies this
      ensures Valid()
      ensures agents == old(agents)[a.id := a]
      ensures agentOrder == if a.id in old(agents) then old(agentOrder) else old(agentOrder) + [a.id]
      ensures stories == old(stories) && storyOrder == old(storyOrder) && updates == old(updates)
      ensures GetAgent(a.id) == Some(a)
    {
      if a.id !in agents {
        agentOrder := agentOrder + [a.id];
      }
      agents := agents[a.id := a];
    }

    /** `getAllAgents`: every stored agent once, in insertion order. */
    function AllAgents(): (r: seq<Agent>)
      reads this
      requires Valid()
      ensures |r| == |agentOrder|
      ensures forall i :: 0 <= i < |r| ==> r[i] == agents[agentOrder[i]] && r[i].id == agentOrder[i]
      ensures forall a :: a in r <==> a.id in agents && agents[a.id] == a
    {
      ValuesInOrder(agentOrder, agents)
    }

    /** `getStory`: the story stored under `id`, if any. */
    function GetStory(id: string): (r: Option<Story>)
      reads this
      ensures r.Some? <==> id in stories
      ensures r.Some? ==> r.value == stories[id]
    {
      if id in stories then Some(stories[id]) else None
    }

    /** `createStory`: inserts, or silently replaces a story with the same id (which keeps its place in the order). */
    method CreateStory(s: Story)
      requires Valid()
      modifies this
      ensures Valid()
      ensures stories == old(stories)[s.id := s]
      ensures storyOrder == if s.id in old(stories) then old(storyOrder) else old(storyOrder) + [s.id]
      ensures agents == old(agents) && agentOrder == old(agentOrder) && updates == old(updates)
      ensures GetStory(s.id) == Some(s)
    {
      if s.id !in stories {
        storyOrder := storyOrder + [s.id];
      }
      stories := stories[s.id := s];
    }

    /**
     * `updateStory`: merges the patch into the story stored under `id`; does
     * nothing to the stories when there is none. The call is logged either way.
     */
    method UpdateStory(id: string, p: Patch)
      requires Valid()
      modifies this
      ensures Valid()
      ensures id in old(stories) ==> stories == old(stories)[id := Apply(old(stories)[id], p)]
      ensures id !in old(stories) ==> stories == old(stories)
      ensures storyOrder == old(storyOrder)
      ensures agents == old(agents) && agentOrder == old(agentOrder)
      ensures updates == old(updates) + [(id, p)]
    {
      if id in stories {
        stories := stories[id := Apply(stories[id], p)];
      }
      updates := updates + [(id, p)];
    }

    /**
     * `getAllStories`: every stored story exactly once, newest first; stories
     * created at the same time keep their insertion order.
     */
    function AllStories(): (r: seq<Story>)
      reads this
      requires Valid()
      ensures NewestFirstListing(r, storyOrder, stories)
      ensures forall t :: WithKey(r, NewestFirst, t) == WithKey(ValuesInOrder(storyOrder, stories), NewestFirst, t)
    {
      var r := SortByKey(ValuesInOrder(storyOrder, stories), NewestFirst);
      NewestFirstFacts(storyOrder, stories);
      NewestFirstStable(ValuesInOrder(storyOrder, stories));
      r
    }

    /**
     * `matchAgentsForTheme`: scores every stored agent other than the
     * initiator against the words of the theme and description, and returns
     * the `maxAgents` best, best first.
     */
    method MatchAgentsForTheme(theme: string, description: string, initiatorId: string, maxAgents: int := 6)
      returns (r: seq<Agent>)
      requires Valid()
      ensures r == Matches(AllAgents(), theme, description, initiatorId, maxAgents)
      ensures forall a :: a in r ==> a.id != initiatorId && a.id in agents && agents[a.id] == a
      ensures maxAgents >= 0 ==> |r| <= maxAgents
      ensures (forall k :: k in agents ==> k == initiatorId) ==> r == []
    {
      var all := Candidates(AllAgents(), initiatorId);
      if |all| == 0 {
        return [];
      }
      var words := ThemeWords(theme, description);
      var scored := ScoreAll(words, all);
      assert scored == ScoredCandidates(AllAgents(), words, initiatorId);
      var ranked := SortByKey(scored, HighestFirst);
      var top := ranked[..SliceEnd(|ranked|, maxAgents)];
      r := seq(|top|, k requires 0 <= k < |top| => top[k].agent);
      MatchesSound(AllAgents(), theme, description, initiatorId, maxAgents);
    }
  }

  /** The callback `matchAgentsForTheme` maps over the candidates: 1, plus 3 per tag related to each word of two or more characters, plus 1 per such word the memory text contains. */
  method ScoreAgent(words: seq<string>, agent: Agent) returns (score: int)
    ensures score == ScoreOf(words, agent)
    ensures score >= 1
  {
    score := 1;
    var tags := Tags(agent);
    var memory := Memory(agent);
    for wi := 0 to |words|
      invariant score == 1 + Score(words[..wi], tags, memory)
    {
      var w := words[wi];
      assert words[..wi + 1][..wi] == words[..wi];
      if |w| < 2 {
        continue;
      }
      for ti := 0 to |tags|
        invariant score == 1 + Score(words[..wi], tags, memory) + 3 * TagHits(tags[..ti], w)
      {
        assert tags[..ti + 1][..ti] == tags[..ti];
        if Contains(tags[ti], w) || Contains(w, tags[ti]) {
          score := score + 3;
        }
      }
      assert tags[..|tags|] == tags;
      if Contains(memory, w) {
        score := score + 1;
      }
    }
    assert words[..|words|] == words;
  }

  /** `all.map(...)` of `matchAgentsForTheme`: every candidate with its score, in order. */
  method ScoreAll(words: seq<string>, all: seq<Agent>) returns (scored: seq<Scored>)
    ensures |scored| == |all|
    ensures forall k :: 0 <= k < |all| ==> scored[k] == Scored(all[k], ScoreOf(words, all[k]))
  {
    scored := [];
    for i := 0 to |all|
      invariant |scored| == i
      invariant forall k :: 0 <= k < i ==> scored[k] == Scored(all[k], ScoreOf(words, all[k]))
    {
      var agent := all[i];
      var score := ScoreAgent(words, agent);
      ScoredSnoc(scored, Scored(agent, score));
      scored := scored + [Scored(agent, score)];
    }
  }

  /** Appending keeps the entries already there. */
  lemma ScoredSnoc(s: seq<Scored>, x: Scored)
    ensures |s + [x]| == |s| + 1 && (s + [x])[|s|] == x
    ensures forall k :: 0 <= k < |s| ==> (s + [x])[k] == s[k]
  {
  }

  /**
   * `r` lists the stories of `m` (stored in the order `order`) newest first:
   * creation times never increase along it, it holds only stored stories,
   * and every stored story exactly once.
   */
  ghost predicate NewestFirstListing(r: seq<Story>, order: seq<string>, m: map<string, Story>)
  {
    && (forall i, j :: 0 <= i < j < |r| ==> r[i].createdAt >= r[j].createdAt)
    && (forall s :: s in r ==> s.id in m && m[s.id] == s)
    && (forall id :: id in m ==> multiset(r)[m[id]] == 1)
    && |r| == |order|
  }

  /** What `getAllStories` promises about sorting the stored stories newest first. */
  lemma NewestFirstFacts(order: seq<string>, m: map<string, Story>)
    requires IsOrderOf(order, m.Keys)
    requires forall k :: k in m ==> m[k].id == k
    ensures NewestFirstListing(SortByKey(ValuesInOrder(order, m), NewestFirst), order, m)
  {
    var all := ValuesInOrder(order, m);
    var r := SortByKey(all, NewestFirst);
    NewestFirstOrdered(r);
    SortedStoriesStored(order, m, r);
    forall id | id in m ensures multiset(r)[m[id]] == 1 {
      StoredOnce(order, m, id);
    }
  }

  /** Sorting newest first keeps the stories created at the same time in their earlier order. */
  lemma NewestFirstStable(all: seq<Story>)
    ensures forall t :: WithKey(SortByKey(all, NewestFirst), NewestFirst, t) == WithKey(all, NewestFirst, t)
  {
    forall t ensures WithKey(SortByKey(all, NewestFirst), NewestFirst, t) == WithKey(all, NewestFirst, t) {
      SortByKeyStable(all, NewestFirst, t);
    }
  }

  /** A list sorted by `NewestFirst` has non-increasing creation times. */
  lemma NewestFirstOrdered(r: seq<Story>)
    requires SortedBy(r, NewestFirst)
    ensures forall i, j :: 0 <= i < j < |r| ==> r[i].createdAt >= r[j].createdAt
  {
    forall i, j | 0 <= i < j < |r| ensures r[i].createdAt >= r[j].createdAt {
      assert NewestFirst(r[i]) <= NewestFirst(r[j]);
    }
  }

  /** A rearrangement of the stored stories holds only stored stories. */
  lemma SortedStoriesStored(order: seq<string>, m: map<string, Story>, r: seq<Story>)
    requires IsOrderOf(order, m.Keys)
    requires forall k :: k in m ==> m[k].id == k
    requires multiset(r) == multiset(ValuesInOrder(order, m))
    ensures forall s :: s in r ==> s.id in m && m[s.id] == s
  {
    var all := ValuesInOrder(order, m);
    forall s | s in r ensures s.id in m && m[s.id] == s {
      assert s in multiset(r);
      assert s in all;
    }
  }

  /** Every match is a stored agent other than the initiator, there are at most `maxAgents` of them when that is not negative, and none when the initiator is the only agent. */
  lemma MatchesSound(all: seq<Agent>, theme: string, description: string, initiatorId: string, maxAgents: int)
    ensures var r := Matches(all, theme, description, initiatorId, maxAgents);
            && (forall a :: a in r ==> a in all && a.id != initiatorId)
            && (maxAgents >= 0 ==> |r| <= maxAgents)
            && ((forall a :: a in all ==> a.id == initiatorId) ==> r == [])
  {
    var r := Matches(all, theme, description, initiatorId, maxAgents);
    if Candidates(all, initiatorId) != [] {
      var ranked := Ranking(all, ThemeWords(theme, description), initiatorId);
      var scored := ScoredCandidates(all, ThemeWords(theme, description), initiatorId);
      forall a | a in r ensures a in all && a.id != initiatorId {
        var k :| 0 <= k < |r| && r[k] == a;
        assert ranked[k] in multiset(ranked);
        assert ranked[k] in scored;
        assert a in Candidates(all, initiatorId);
      }
    }
  }

  /** In a map whose records sit under their own ids, each stored value occurs once among the values in key order. */
  lemma {:induction false} StoredOnce(order: seq<string>, m: map<string, Story>, id: string)
    requires IsOrderOf(order, m.Keys)
    requires forall k :: k in m ==> m[k].id == k
    requires id in m
    ensures multiset(ValuesInOrder(order, m))[m[id]] == 1
  {
    CountInOrder(order, m, id);
  }

  lemma {:induction false} CountInOrder(order: seq<string>, m: map<string, Story>, id: string)
    requires forall i, j :: 0 <= i < j < |order| ==> order[i] != order[j]
    requires forall k :: k in order ==> k in m
    requires forall k :: k in m ==> m[k].id == k
    requires id in m
    ensures multiset(ValuesInOrder(order, m))[m[id]] == if id in order then 1 else 0
  {
    if order != [] {
      var rest := order[1..];
      CountInOrder(rest, m, id);
      var vs := ValuesInOrder(order, m);
      assert vs == [m[order[0]]] + ValuesInOrder(rest, m);
      assert id in order <==> id == order[0] || id in rest;
      if order[0] == id {
        assert id !in rest;
      } else {
        assert m[order[0]] != m[id];
      }
    }
  }
}
