/**
 * The narrative orchestrator of lib/orchestrator.ts: the four phases of a
 * story (memory extraction, position negotiation, weaving, composition), the
 * status writes `runNarrative` makes while it drives them, and the demo roster.
 *
 * Every agent call (a request to the remote act or chat API, its event stream
 * collapsed by `parseSSEStream`, code fences stripped, the JSON parsed) is an
 * oracle: a function from the agent and the message sent on its behalf to
 * the reply, with one alternative for every way the call can throw.
 */
module Orchestrator {
  import opened Wrappers
  import opened Records
  import opened Text
  import opened Sorting
  import opened Store

  /** The parsed reply to an extraction call; `ExtractFailed` when the call, the stream or the parse throws. */
  datatype ExtractReply =
    | ExtractFailed
    | Extracted(
        hasMemory: bool,
        title: Option<string>,
        content: Option<string>,
        emotion: Option<string>,
        timeHint: Option<string>,
        uniqueDetail: Option<string>)

  /** The parsed reply to a proposal call; `ProposalFailed` when the call, the stream or the parse throws. */
  datatype ProposalReply =
    | ProposalFailed
    | Proposed(position: Option<string>, connection: Option<string>, transition: Option<string>)

  /** The collapsed text of a chat call; `ChatFailed` when the call or the stream throws. */
  datatype ChatReply = ChatFailed | Replied(text: string)

  /** The three kinds of agent call, each answering an agent and the message sent for it. */
  datatype Oracles = Oracles(
    extract: (Agent, string) -> ExtractReply,
    propose: (Agent, string) -> ProposalReply,
    chat: (Agent, string) -> ChatReply)

  /** `agents.find(a => a.id === id)`: the first agent with that id. */
  function FindAgent(agents: seq<Agent>, id: string): (r: Option<Agent>)
    ensures r.Some? ==> r.value in agents && r.value.id == id
    ensures r.None? ==> forall i :: 0 <= i < |agents| ==> agents[i].id != id
  {
    if agents == [] then None
    else if agents[0].id == id then Some(agents[0])
    else FindAgent(agents[1..], id)
  }

  /** The agent found is the first one with the id: every agent before it has another id. */
  lemma {:induction false} FindAgentFirst(agents: seq<Agent>, id: string)
    ensures FindAgent(agents, id).Some? ==>
              exists i :: 0 <= i < |agents| && agents[i] == FindAgent(agents, id).value
                          && forall j :: 0 <= j < i ==> agents[j].id != id
  {
    if agents != [] && agents[0].id != id {
      FindAgentFirst(agents[1..], id);
      var r := FindAgent(agents[1..], id);
      if r.Some? {
        var i :| 0 <= i < |agents[1..]| && agents[1..][i] == r.value
                 && forall j :: 0 <= j < i ==> agents[1..][j].id != id;
        assert agents[i + 1] == r.value;
        forall j | 0 <= j < i + 1 ensures agents[j].id != id {
          if j > 0 {
            assert agents[j] == agents[1..][j - 1];
          }
        }
      }
    } else if agents != [] {
      assert agents[0] == FindAgent(agents, id).value;
    }
  }

  // ----- Phase 1: memory extraction -----

  /** The message an extraction call sends: the story's theme and description. */
  function ExtractionMessage(s: Story): string
  {
    "主题：" + s.theme + "\n描述：" + s.description
  }

  /** The fragment an agent contributes for a reply, if any: only a parsed reply that reports a memory yields one. */
  function Contribution(a: Agent, reply: ExtractReply): (r: Option<Fragment>)
    ensures r.Some? <==> reply.Extracted? && reply.hasMemory
    ensures r.Some? ==>
              && r.value.agentId == a.id && r.value.agentName == a.name && r.value.agentAvatar == a.avatarUrl
              && r.value.title == Or(reply.title, "") && r.value.content == Or(reply.content, "")
              && r.value.emotion == Or(reply.emotion, "reflective") && r.value.emotion != ""
              && r.value.timeHint == Or(reply.timeHint, "") && r.value.uniqueDetail == Or(reply.uniqueDetail, "")
              && r.value.proposedPosition.None? && r.value.connectionNote.None?
              && r.value.transitionHint.None? && r.value.refinedContent.None? && r.value.isAIGenerated.None?
  {
    match reply
    case ExtractFailed => None
    case Extracted(hasMemory, title, content, emotion, timeHint, uniqueDetail) =>
      if !hasMemory then None
      else Some(Fragment(a.id, a.name, a.avatarUrl,
                         Or(title, ""), Or(content, ""), Or(emotion, "reflective"),
                         Or(timeHint, ""), Or(uniqueDetail, ""),
                         None, None, None, None, None))
  }

  /** The fragments of an extraction: each agent's contribution, in the order of the agents. */
  function Extraction(agents: seq<Agent>, message: string, extract: (Agent, string) -> ExtractReply): seq<Fragment>
  {
    if agents == [] then []
    else
      var a := agents[|agents| - 1];
      var c := Contribution(a, extract(a, message));
      Extraction(agents[..|agents| - 1], message, extract) + (if c.Some? then [c.value] else [])
  }

  /** `extractMemories`: asks every agent for a memory and keeps, in agent order, the fragments of those that have one. */
  method ExtractMemories(s: Story, agents: seq<Agent>, extract: (Agent, string) -> ExtractReply)
    returns (fragments: seq<Fragment>)
    ensures fragments == Extraction(agents, ExtractionMessage(s), extract)
  {
    fragments := [];
    var message := ExtractionMessage(s);
    for k := 0 to |agents|
      invariant fragments == Extraction(agents[..k], message, extract)
    {
      assert agents[..k + 1][..k] == agents[..k];
      var agent := agents[k];
      var reply := extract(agent, message);
      if reply.Extracted? && reply.hasMemory {
        fragments := fragments + [Fragment(agent.id, agent.name, agent.avatarUrl,
                                           Or(reply.title, ""), Or(reply.content, ""), Or(reply.emotion, "reflective"),
                                           Or(reply.timeHint, ""), Or(reply.uniqueDetail, ""),
                                           None, None, None, None, None)];
      }
    }
    assert agents[..|agents|] == agents;
  }

  /** Extraction keeps the order of the agents: extracting from two lists of agents in turn gives the two results one after the other. */
  lemma {:induction false} ExtractionAppend(a: seq<Agent>, b: seq<Agent>, message: string, extract: (Agent, string) -> ExtractReply)
    ensures Extraction(a + b, message, extract) == Extraction(a, message, extract) + Extraction(b, message, extract)
  {
    if b == [] {
      assert a + b == a;
    } else {
      ExtractionAppend(a, b[..|b| - 1], message, extract);
      assert (a + b)[..|a + b| - 1] == a + b[..|b| - 1];
    }
  }

  /** At most one fragment per agent, and every fragment is the contribution of an agent of the list. */
  lemma {:induction false} ExtractionSound(agents: seq<Agent>, message: string, extract: (Agent, string) -> ExtractReply)
    ensures var fs := Extraction(agents, message, extract);
            && |fs| <= |agents|
            && forall f :: f in fs ==> exists a :: a in agents && Contribution(a, extract(a, message)) == Some(f)
  {
    if agents != [] {
      var front := agents[..|agents| - 1];
      ExtractionSound(front, message, extract);
      forall f | f in Extraction(agents, message, extract)
        ensures exists a :: a in agents && Contribution(a, extract(a, message)) == Some(f)
      {
        if f in Extraction(front, message, extract) {
          var a :| a in front && Contribution(a, extract(a, message)) == Some(f);
          assert a in agents;
        } else {
          assert agents[|agents| - 1] in agents;
        }
      }
    }
  }

  // ----- Phase 2: position negotiation -----

  /** The line of the summary that stands for one fragment: the teller, the title and the first 60 characters. */
  function SummaryLine(f: Fragment): string
  {
    "「" + f.agentName + "」的记忆：" + f.title + " - " + Take(f.content, 60) + "..."
  }

  /** The summary of all fragments every proposal call is shown, one line per fragment. */
  function Summary(fragments: seq<Fragment>): string
  {
    Join(seq(|fragments|, i requires 0 <= i < |fragments| => SummaryLine(fragments[i])), "\n")
  }

  /** The message a proposal call sends for one fragment. */
  function ProposalMessage(theme: string, summary: string, f: Fragment): string
  {
    "主题：" + theme + "\n\n所有记忆片段：\n" + summary + "\n\n你的记忆：" + f.title + " - " + f.content
  }

  /** The two fragments agree on every field but the three negotiation fields. */
  predicate SameExceptPosition(f: Fragment, g: Fragment)
  {
    f == g.(proposedPosition := f.proposedPosition, connectionNote := f.connectionNote, transitionHint := f.transitionHint)
  }

  /** A fragment after its teller's proposal. */
  function Proposal(f: Fragment, agents: seq<Agent>, theme: string, summary: string,
                    propose: (Agent, string) -> ProposalReply): Fragment
  {
    var agent := FindAgent(agents, f.agentId);
    if agent.None? then f
    else
      match propose(agent.value, ProposalMessage(theme, summary, f))
      case ProposalFailed => f.(proposedPosition := Some("middle"))
      case Proposed(position, connection, transition) =>
        f.(proposedPosition := Some(Or(position, "middle")),
           connectionNote := Some(Or(connection, "")),
           transitionHint := Some(Or(transition, "")))
  }

  /** Every fragment after its teller's proposal, in the original order (before the sort). */
  function Proposals(theme: string, agents: seq<Agent>, fragments: seq<Fragment>,
                     propose: (Agent, string) -> ProposalReply): (r: seq<Fragment>)
    ensures |r| == |fragments|
  {
    var summary := Summary(fragments);
    seq(|fragments|, i requires 0 <= i < |fragments| => Proposal(fragments[i], agents, theme, summary, propose))
  }

  /** What a proposal does to a fragment: it keeps the fragment's identity and text, and sets only the negotiation fields. */
  lemma ProposalEffect(f: Fragment, agents: seq<Agent>, theme: string, summary: string,
                       propose: (Agent, string) -> ProposalReply)
    ensures var r := Proposal(f, agents, theme, summary, propose);
            && SameExceptPosition(r, f)
            && (FindAgent(agents, f.agentId).None? ==> r == f)
            && (FindAgent(agents, f.agentId).Some?
                && propose(FindAgent(agents, f.agentId).value, ProposalMessage(theme, summary, f)).ProposalFailed?
                ==> r == f.(proposedPosition := Some("middle")))
            && (FindAgent(agents, f.agentId).Some? ==> r.proposedPosition.Some? && r.proposedPosition.value != "")
            && (FindAgent(agents, f.agentId).Some?
                && propose(FindAgent(agents, f.agentId).value, ProposalMessage(theme, summary, f)).Proposed?
                ==> var reply := propose(FindAgent(agents, f.agentId).value, ProposalMessage(theme, summary, f));
                    r == f.(proposedPosition := Some(Or(reply.position, "middle")),
                            connectionNote := Some(Or(reply.connection, "")),
                            transitionHint := Some(Or(reply.transition, ""))))
  {
  }

  /** The place of each named position, as the sort's lookup table has it. */
  function PositionOrder(p: string): Option<int>
  {
    if p == "opening" then Some(0)
    else if p == "middle" then Some(1)
    else if p == "climax" then Some(2)
    else if p == "closing" then Some(3)
    else None
  }

  /**
   * The sort key of a fragment as the comparator computes it: the rank of its
   * position, `middle` when it has none or an empty one.
   */
  function Rank(f: Fragment): int
  {
    PositionRank(Or(f.proposedPosition, "middle"))
  }

  /** The table's number for a named position, with `|| 1` turning both a missing entry and `0` into 1. */
  function PositionRank(p: string): int
  {
    var n := PositionOrder(p);
    if n.Some? && n.value != 0 then n.value else 1
  }

  /** The effective ranks: `opening`, `middle`, a missing, empty or unknown position all rank 1; `climax` 2; `closing` 3. */
  lemma RankValues(f: Fragment)
    ensures Rank(f) == 2 <==> f.proposedPosition == Some("climax")
    ensures Rank(f) == 3 <==> f.proposedPosition == Some("closing")
    ensures Rank(f) == 1 <==> f.proposedPosition != Some("climax") && f.proposedPosition != Some("closing")
    ensures f.proposedPosition == Some("opening") ==> Rank(f) == Rank(f.(proposedPosition := Some("middle")))
  {
  }

  /**
   * The sort key the lookup table is meant to give: the place of the
   * fragment's position, `middle` when it has none or an empty one, and the
   * place of `middle` for a position the table does not name.
   */
  function IntendedRank(f: Fragment): int
  {
    IntendedPositionRank(Or(f.proposedPosition, "middle"))
  }

  /** The table's number for a named position, 1 only when the table has no entry. */
  function IntendedPositionRank(p: string): int
  {
    var n := PositionOrder(p);
    if n.Some? then n.value else 1
  }

  /** The intended ranks: `opening` 0; `middle` and a missing, empty or unknown position 1; `climax` 2; `closing` 3. */
  lemma IntendedRankValues(f: Fragment)
    ensures IntendedRank(f) == 0 <==> f.proposedPosition == Some("opening")
    ensures IntendedRank(f) == 2 <==> f.proposedPosition == Some("climax")
    ensures IntendedRank(f) == 3 <==> f.proposedPosition == Some("closing")
    ensures IntendedRank(f) == 1 <==> f.proposedPosition !in {Some("opening"), Some("climax"), Some("closing")}
  {
  }

  /**
   * With the comparator as written, a fragment that proposes `opening`
   * placed after one that proposes `middle` stays behind it; the intended
   * key moves it to the front.
   */
  lemma OpeningNotFirst(f: Fragment)
    ensures var a, b := f.(proposedPosition := Some("middle")), f.(proposedPosition := Some("opening"));
            && SortByKey([a, b], Rank) == [a, b]
            && SortByKey([a, b], IntendedRank) == [b, a]
  {
    var a, b := f.(proposedPosition := Some("middle")), f.(proposedPosition := Some("opening"));
    SortTwo(a, b, Rank);
    SortTwo(a, b, IntendedRank);
  }

  /** The negotiation with the intended key: the same proposals, sorted stably by `IntendedRank`. */
  function IntendedNegotiation(theme: string, agents: seq<Agent>, fragments: seq<Fragment>,
                               propose: (Agent, string) -> ProposalReply): (r: seq<Fragment>)
    ensures multiset(r) == multiset(Proposals(theme, agents, fragments, propose))
  {
    SortByKey(Proposals(theme, agents, fragments, propose), IntendedRank)
  }

  /** With the intended key, every fragment proposing `opening` comes before every fragment that does not. */
  lemma OpeningFirst(theme: string, agents: seq<Agent>, fragments: seq<Fragment>,
                     propose: (Agent, string) -> ProposalReply)
    ensures var r := IntendedNegotiation(theme, agents, fragments, propose);
            forall i, j ::
              0 <= i < |r| && 0 <= j < |r| && r[j].proposedPosition == Some("opening") && r[i].proposedPosition != Some("opening")
              ==> j < i
  {
    var r := IntendedNegotiation(theme, agents, fragments, propose);
    forall i, j | 0 <= i < |r| && 0 <= j < |r| && r[j].proposedPosition == Some("opening")
                  && r[i].proposedPosition != Some("opening")
      ensures j < i
    {
      IntendedRankValues(r[i]);
      IntendedRankValues(r[j]);
      if i < j {
        assert false;
      }
    }
  }

  /**
   * `negotiateNarrative`: every fragment whose teller is among the agents gets
   * that teller's proposal, then the list is sorted stably by `Rank`.
   */
  method NegotiateNarrative(s: Story, agents: seq<Agent>, fragments: seq<Fragment>,
                            propose: (Agent, string) -> ProposalReply)
    returns (r: seq<Fragment>)
    ensures r == SortByKey(Proposals(s.theme, agents, fragments, propose), Rank)
  {
    var summary := Summary(fragments);
    var updated := fragments;
    for idx := 0 to |fragments|
      invariant |updated| == |fragments|
      invariant forall k :: 0 <= k < idx ==> updated[k] == Proposal(fragments[k], agents, s.theme, summary, propose)
      invariant forall k :: idx <= k < |fragments| ==> updated[k] == fragments[k]
    {
      var frag := fragments[idx];
      var agent := FindAgent(agents, frag.agentId);
      if agent.None? {
        continue;
      }
      var next := ProposeOne(s.theme, summary, frag, agents, agent.value, propose);
      updated := updated[idx := next];
    }
    ProposalsAt(s.theme, agents, fragments, propose);
    assert updated == Proposals(s.theme, agents, fragments, propose);
    r := SortByKey(updated, Rank);
  }

  /** Each proposal is made against the summary of all the fragments. */
  lemma ProposalsAt(theme: string, agents: seq<Agent>, fragments: seq<Fragment>,
                    propose: (Agent, string) -> ProposalReply)
    ensures forall k :: 0 <= k < |fragments| ==>
              Proposals(theme, agents, fragments, propose)[k] == Proposal(fragments[k], agents, theme, Summary(fragments), propose)
  {
  }

  /** The callback `negotiateNarrative` runs for a fragment whose teller is known: the teller's proposal, or `middle` when the call fails. */
  method ProposeOne(theme: string, summary: string, frag: Fragment, agents: seq<Agent>, agent: Agent,
                    propose: (Agent, string) -> ProposalReply)
    returns (next: Fragment)
    requires FindAgent(agents, frag.agentId) == Some(agent)
    ensures next == Proposal(frag, agents, theme, summary, propose)
  {
    var reply := propose(agent, ProposalMessage(theme, summary, frag));
    match reply {
      case ProposalFailed =>
        next := frag.(proposedPosition := Some("middle"));
      case Proposed(position, connection, transition) =>
        next := frag.(proposedPosition := Some(Or(position, "middle")),
                      connectionNote := Some(Or(connection, "")),
                      transitionHint := Some(Or(transition, "")));
    }
  }

  /**
   * Negotiation neither drops nor duplicates a fragment: the result is the
   * proposals rearranged, in non-decreasing rank, fragments of equal rank in
   * their original order; and each proposal is its fragment with only the
   * negotiation fields changed.
   */
  lemma NegotiationOrdered(theme: string, agents: seq<Agent>, fragments: seq<Fragment>,
                           propose: (Agent, string) -> ProposalReply)
    ensures var p := Proposals(theme, agents, fragments, propose);
            var r := SortByKey(p, Rank);
            && |r| == |fragments|
            && multiset(r) == multiset(p)
            && (forall i, j :: 0 <= i < j < |r| ==> Rank(r[i]) <= Rank(r[j]))
            && (forall k :: WithKey(r, Rank, k) == WithKey(p, Rank, k))
            && (forall i :: 0 <= i < |p| ==> SameExceptPosition(p[i], fragments[i]))
  {
    var p := Proposals(theme, agents, fragments, propose);
    forall k ensures WithKey(SortByKey(p, Rank), Rank, k) == WithKey(p, Rank, k) {
      SortByKeyStable(p, Rank, k);
    }
    forall i | 0 <= i < |p| ensures SameExceptPosition(p[i], fragments[i]) {
      ProposalEffect(fragments[i], agents, theme, Summary(fragments), propose);
    }
  }

  // ----- Phase 3: weaving -----

  /** The neighbours a fragment is told about. */
  datatype Neighbours = Neighbours(prev: Option<Fragment>, next: Option<Fragment>)

  /** The neighbours of the fragment at `i`, read from the list being woven. */
  function NeighboursAt(fragments: seq<Fragment>, i: nat): (r: Neighbours)
    requires i < |fragments|
    ensures r.prev.None? <==> i == 0
    ensures r.next.None? <==> i == |fragments| - 1
    ensures r.prev.Some? ==> r.prev.value == fragments[i - 1]
    ensures r.next.Some? ==> r.next.value == fragments[i + 1]
  {
    Neighbours(if i > 0 then Some(fragments[i - 1]) else None,
               if i < |fragments| - 1 then Some(fragments[i + 1]) else None)
  }

  /** The weaving prompt for the fragment in place `place` of `total`. */
  function WeavePrompt(theme: string, place: nat, total: nat, nb: Neighbours): string
  {
    WeaveHead(theme, place, total) + PrevLine(nb.prev) + "\n" + NextLine(nb.next) + WeaveTail
  }
  /** The opening of the prompt: the theme and the fragment's place. */
  function WeaveHead(theme: string, place: nat, total: nat): string
  {
    "你正在参与一个群体叙事项目，主题是「" + theme + "」。\n\n你的记忆片段将被放在故事的第 "
    + NatToString(place) + "/" + NatToString(total) + " 位。\n"
  }
  /** The line about the previous fragment, or the line saying there is none. */
  function PrevLine(prev: Option<Fragment>): string
  {
    if prev.Some?
       then "前一段是「" + prev.value.agentName + "」讲的：" + Take(prev.value.content, 80) + "..."
       else "你是故事的开头。"
  }
  /** The line about the next fragment, or the line saying there is none. */
  function NextLine(next: Option<Fragment>): string
  {
    if next.Some?
       then "后一段是「" + next.value.agentName + "」要讲：" + next.value.title
       else "你是故事的结尾。"
  }
  /** The closing instructions of the prompt. */
  const WeaveTail: string := "\n\n请基于你的原始记忆，重新润色你的叙述，使之与前后段落自然衔接。\n要求：保持第一人称，80-150字，保持你的真实情感和独特细节。"

  /** The fragment at `i` after weaving. */
  function WovenAt(theme: string, agents: seq<Agent>, fragments: seq<Fragment>, i: nat,
                   chat: (Agent, string) -> ChatReply): Fragment
    requires i < |fragments|
  {
    var frag := fragments[i];
    var agent := FindAgent(agents, frag.agentId);
    if agent.None? then frag
    else
      match chat(agent.value, WeavePrompt(theme, i + 1, |fragments|, NeighboursAt(fragments, i)))
      case ChatFailed => frag.(refinedContent := Some(frag.content))
      case Replied(text) => frag.(refinedContent := Some(Take(text, 300)))
  }

  /** Every fragment after weaving, in place. */
  function Woven(theme: string, agents: seq<Agent>, fragments: seq<Fragment>,
                   chat: (Agent, string) -> ChatReply): (r: seq<Fragment>)
    ensures |r| == |fragments|
  {
    seq(|fragments|, i requires 0 <= i < |fragments| => WovenAt(theme, agents, fragments, i, chat))
  }

  /** `weaveNarrative`: asks the teller of each fragment, in turn, to rewrite it to fit between its neighbours. */
  method WeaveNarrative(s: Story, agents: seq<Agent>, fragments: seq<Fragment>,
                        chat: (Agent, string) -> ChatReply)
    returns (woven: seq<Fragment>)
    ensures woven == Woven(s.theme, agents, fragments, chat)
  {
    woven := fragments;
    var i := 0;
    while i < |fragments|
      invariant 0 <= i <= |fragments|
      invariant |woven| == |fragments|
      invariant forall k :: 0 <= k < i ==> woven[k] == WovenAt(s.theme, agents, fragments, k, chat)
      invariant forall k :: i <= k < |fragments| ==> woven[k] == fragments[k]
    {
      var frag := fragments[i];
      var agent := FindAgent(agents, frag.agentId);
      if agent.None? {
        i := i + 1;
        continue;
      }
      var prev := if i > 0 then Some(fragments[i - 1]) else None;
      var next := if i < |fragments| - 1 then Some(fragments[i + 1]) else None;
      assert Neighbours(prev, next) == NeighboursAt(fragments, i);
      var prompt := WeavePrompt(s.theme, i + 1, |fragments|, Neighbours(prev, next));
      var reply := chat(agent.value, prompt);
      if reply.Replied? {
        woven := woven[i := woven[i].(refinedContent := Some(Take(reply.text, 300)))];
      } else {
        woven := woven[i := woven[i].(refinedContent := Some(frag.content))];
      }
      assert woven[i] == WovenAt(s.theme, agents, fragments, i, chat);
      i := i + 1;
    }
    assert woven == Woven(s.theme, agents, fragments, chat);
  }

  /**
   * Weaving keeps the length and the order, and changes nothing but
   * `refinedContent`: a reply is cut to 300 characters, a failed call falls
   * back to the whole original content, a missing teller leaves the fragment
   * untouched.
   */
  lemma WeavingEffect(theme: string, agents: seq<Agent>, fragments: seq<Fragment>,
                      chat: (Agent, string) -> ChatReply, i: nat)
    requires i < |fragments|
    ensures var w := Woven(theme, agents, fragments, chat)[i];
            var f := fragments[i];
            var agent := FindAgent(agents, f.agentId);
            var reply := if agent.Some? then chat(agent.value, WeavePrompt(theme, i + 1, |fragments|, NeighboursAt(fragments, i))) else ChatFailed;
            && w == f.(refinedContent := w.refinedContent)
            && (agent.None? ==> w == f)
            && (agent.Some? && reply.ChatFailed? ==> w.refinedContent == Some(f.content))
            && (agent.Some? && reply.Replied? ==>
                  w.refinedContent == Some(Take(reply.text, 300)))
  {
  }

  // ----- Phase 4: composition -----

  /** The divider between two parts of a narrative. */
  const Divider: string := "\n\n---\n\n"

  /** What a fragment reads as in the narrative: its rewritten text when there is one, otherwise its original text. */
  function Body(f: Fragment): (r: string)
    ensures f.refinedContent.Some? && f.refinedContent.value != "" ==> r == f.refinedContent.value
    ensures f.refinedContent.None? || f.refinedContent == Some("") ==> r == f.content
  {
    Or(f.refinedContent, f.content)
  }

  /** The block of one fragment: its teller, its time and its text. */
  function Block(f: Fragment): string
  {
    "**" + f.agentName + "** _" + f.timeHint + "_\n\n" + Body(f)
  }

  /** The part for the fragment at `i`: its block, followed by a divider unless it is the last. */
  function Part(woven: seq<Fragment>, i: nat): string
    requires i < |woven|
  {
    Block(woven[i]) + (if i < |woven| - 1 then Divider else "")
  }

  function Parts(woven: seq<Fragment>): (r: seq<string>)
    ensures |r| == |woven|
  {
    seq(|woven|, i requires 0 <= i < |woven| => Part(woven, i))
  }

  function Blocks(woven: seq<Fragment>): (r: seq<string>)
    ensures |r| == |woven|
  {
    seq(|woven|, i requires 0 <= i < |woven| => Block(woven[i]))
  }

  /** The final narrative: a header with the theme and the count, the parts, a footer with the count. */
  function Compose(theme: string, woven: seq<Fragment>): string
  {
    ComposeHead(theme, |woven|) + Concat(Parts(woven)) + ComposeFoot(|woven|)
  }

  /** The pieces of literal text around the counts in the subtitle and the credits line. */
  const SubtitleOpen: string := "\n\n_"
  const MemoriesWord: string := " 段记忆，"
  const SubtitleClose: string := " 种人生，编织成一个只有他们才能讲述的故事_\n\n---\n\n"
  const CreditsOpen: string := "\n\n---\n\n_本叙事由 "
  const CreditsClose: string := " 位 AI 分身通过记忆拼图协作生成。每段记忆来自真实的人生经历，经过叙事协商编排成一个完整的故事。_"

  /** The heading and the subtitle up to the second count: `# theme`, then `_n 段记忆，n`. */
  function Heading(theme: string, n: nat): string
  {
    "# " + theme + SubtitleOpen + NatToString(n) + MemoriesWord + NatToString(n)
  }

  /** The heading and the subtitle of the narrative, up to the first divider. */
  function ComposeHead(theme: string, n: nat): string
  {
    Heading(theme, n) + SubtitleClose
  }

  /** The closing divider and the credits line, with the count. */
  function ComposeFoot(n: nat): string
  {
    CreditsOpen + NatToString(n) + CreditsClose
  }

  /** Appending a divider to every part but the last is joining the blocks with the divider. */
  lemma {:induction false} PartsAreJoinedBlocks(woven: seq<Fragment>)
    ensures Concat(Parts(woven)) == Join(Blocks(woven), Divider)
  {
    if |woven| == 1 {
      assert Parts(woven)[0] == Part(woven, 0) == Block(woven[0]);
      assert Parts(woven) == [Block(woven[0])];
    } else if |woven| > 1 {
      var rest := woven[1..];
      PartsAreJoinedBlocks(rest);
      assert Parts(woven)[1..] == Parts(rest) by {
        forall i | 0 <= i < |rest| ensures Parts(woven)[1..][i] == Parts(rest)[i] {
          assert woven[i + 1] == rest[i];
        }
      }
      assert Blocks(woven)[1..] == Blocks(rest);
    }
  }

  /**
   * The composed narrative starts with the theme as a heading, followed by
   * the subtitle that gives the number of fragments twice.
   */
  lemma ComposeShape(theme: string, woven: seq<Fragment>)
    ensures StartsWith(Compose(theme, woven), "# " + theme)
    ensures StartsWith(Compose(theme, woven), "# " + theme + SubtitleOpen + NatToString(|woven|) + MemoriesWord + NatToString(|woven|))
    ensures Compose(theme, woven) != ""
  {
    var n := |woven|;
    var head := Heading(theme, n);
    var body := Concat(Parts(woven));
    PrefixOfAppend(head, SubtitleClose);
    PrefixOfAppend(head + SubtitleClose, body);
    PrefixOfAppend(head + SubtitleClose + body, ComposeFoot(n));
    PrefixTransitive(Compose(theme, woven), head + SubtitleClose + body, head + SubtitleClose);
    PrefixTransitive(Compose(theme, woven), head + SubtitleClose, head);
    HeadingStartsWithTheme(theme, n);
    PrefixTransitive(Compose(theme, woven), head, "# " + theme);
  }

  /** The heading starts with `# ` and the theme. */
  lemma HeadingStartsWithTheme(theme: string, n: nat)
    ensures StartsWith(Heading(theme, n), "# " + theme)
  {
    var count := NatToString(n);
    PrefixOfAppend("# " + theme, SubtitleOpen);
    PrefixOfAppend("# " + theme + SubtitleOpen, count);
    PrefixOfAppend("# " + theme + SubtitleOpen + count, MemoriesWord);
    PrefixOfAppend("# " + theme + SubtitleOpen + count + MemoriesWord, count);
    PrefixTransitive(Heading(theme, n), "# " + theme + SubtitleOpen + count + MemoriesWord, "# " + theme + SubtitleOpen + count);
    PrefixTransitive(Heading(theme, n), "# " + theme + SubtitleOpen + count, "# " + theme + SubtitleOpen);
    PrefixTransitive(Heading(theme, n), "# " + theme + SubtitleOpen, "# " + theme);
  }

  /** The composed narrative ends with the credits line, which gives the number of fragments again. */
  lemma ComposeCredits(theme: string, woven: seq<Fragment>)
    ensures EndsWith(Compose(theme, woven), ComposeFoot(|woven|))
    ensures StartsWith(ComposeFoot(|woven|), CreditsOpen + NatToString(|woven|))
    ensures EndsWith(ComposeFoot(|woven|), CreditsClose)
  {
    var n := |woven|;
    SuffixOfAppend(ComposeHead(theme, n) + Concat(Parts(woven)), ComposeFoot(n));
    PrefixOfAppend(CreditsOpen + NatToString(n), CreditsClose);
    SuffixOfAppend(CreditsOpen + NatToString(n), CreditsClose);
  }

  // ----- runNarrative -----

  /** The narrative written when no participant is stored. */
  const NoParticipants: string := "⚠️ 没有足够的参与者贡献记忆。"

  /** `participantIds.map(getAgent).filter(...)`: the stored agents of the listed ids, in list order. */
  function Participants(ids: seq<string>, agents: map<string, Agent>): (r: seq<Agent>)
    ensures |r| <= |ids|
    ensures r == [] <==> forall i :: 0 <= i < |ids| ==> ids[i] !in agents
    ensures forall a :: a in r ==> exists i :: 0 <= i < |ids| && ids[i] in agents && agents[ids[i]] == a
  {
    if ids == [] then []
    else
      var front := Participants(ids[..|ids| - 1], agents);
      var id := ids[|ids| - 1];
      assert forall i :: 0 <= i < |ids| - 1 ==> ids[..|ids| - 1][i] == ids[i];
      front + (if id in agents then [agents[id]] else [])
  }

  /** One id gives its stored agent, or nothing when it is not stored. */
  lemma ParticipantsSingle(id: string, agents: map<string, Agent>)
    ensures Participants([id], agents) == if id in agents then [agents[id]] else []
  {
    assert [id][..0] == [];
  }

  /** The agents of two lists of ids are those of the first followed by those of the second: the order of the ids is kept and no stored id is lost. */
  lemma {:induction false} ParticipantsAppend(ids: seq<string>, more: seq<string>, agents: map<string, Agent>)
    ensures Participants(ids + more, agents) == Participants(ids, agents) + Participants(more, agents)
    decreases |more|
  {
    if more == [] {
      assert ids + more == ids;
    } else {
      assert (ids + more)[..|ids + more| - 1] == ids + more[..|more| - 1];
      ParticipantsAppend(ids, more[..|more| - 1], agents);
    }
  }

  /** Every listed id that is stored contributes its agent. */
  lemma {:induction false} ParticipantsComplete(ids: seq<string>, agents: map<string, Agent>)
    ensures forall i :: 0 <= i < |ids| && ids[i] in agents ==> agents[ids[i]] in Participants(ids, agents)
  {
    if ids != [] {
      var front := ids[..|ids| - 1];
      ParticipantsComplete(front, agents);
      assert forall i :: 0 <= i < |ids| - 1 ==> front[i] == ids[i];
    }
  }

  /** The updates `runNarrative` makes to a stored story, in order. */
  function NarrativeWrites(s: Story, agents: seq<Agent>, o: Oracles, now: int): seq<Patch>
  {
    if agents == [] then [Patch(Some(Completed), None, Some(NoParticipants), Some(now))]
    else
      var fragments := Extraction(agents, ExtractionMessage(s), o.extract);
      var negotiated := SortByKey(Proposals(s.theme, agents, fragments, o.propose), Rank);
      var woven := Woven(s.theme, agents, negotiated, o.chat);
      PhaseWrites(fragments, negotiated, woven, Compose(s.theme, woven), now)
  }

  /** The five updates of a run with participants, given what each phase produced. */
  function PhaseWrites(fragments: seq<Fragment>, negotiated: seq<Fragment>, woven: seq<Fragment>,
                       narrative: string, now: int): seq<Patch>
  {
    [StatusPatch(Extracting),
     Patch(Some(Negotiating), Some(fragments), None, None),
     Patch(Some(Weaving), Some(negotiated), None, None),
     Patch(Some(Composing), Some(woven), None, None),
     Patch(Some(Completed), Some(woven), Some(narrative), Some(now))]
  }

  /** The log entries of a series of updates to one story. */
  function Tagged(id: string, ps: seq<Patch>): (r: seq<(string, Patch)>)
    ensures |r| == |ps|
  {
    seq(|ps|, i requires 0 <= i < |ps| => (id, ps[i]))
  }

  /** The log entries of consecutive series are those of the first followed by those of the second. */
  lemma TaggedAppend(id: string, a: seq<Patch>, b: seq<Patch>)
    ensures Tagged(id, a + b) == Tagged(id, a) + Tagged(id, b)
  {
  }

  /**
   * `runNarrative`: looks the story up (failing when it is missing), resolves
   * its participants, and either completes it at once when none is stored or
   * runs the four phases, writing the status and fragments after each.
   */
  method RunNarrative(db: Database, storyId: string, o: Oracles, now: int) returns (r: Result<(), string>)
    requires db.Valid()
    modifies db
    ensures db.Valid()
    ensures db.agents == old(db.agents) && db.agentOrder == old(db.agentOrder) && db.storyOrder == old(db.storyOrder)
    ensures storyId !in old(db.stories) ==>
              r == Failure("Story not found") && db.stories == old(db.stories) && db.updates == old(db.updates)
    ensures storyId in old(db.stories) ==>
              var s := old(db.stories)[storyId];
              var ws := NarrativeWrites(s, Participants(s.participantIds, old(db.agents)), o, now);
              && r.Success?
              && db.updates == old(db.updates) + Tagged(storyId, ws)
              && db.stories == old(db.stories)[storyId := ApplyAll(s, ws)]
  {
    var story := db.GetStory(storyId);
    if story.None? {
      return Failure("Story not found");
    }
    var s := story.value;
    var agents := Participants(s.participantIds, db.agents);
    ghost var updates0 := db.updates;
    ghost var stories0 := db.stories;
    if |agents| == 0 {
      var p := Patch(Some(Completed), None, Some(NoParticipants), Some(now));
      db.UpdateStory(storyId, p);
      OneWrite(storyId, s, p, updates0, stories0);
      return Success(());
    }
    var p0 := StatusPatch(Extracting);
    db.UpdateStory(storyId, p0);
    var fragments := ExtractMemories(s, agents, o.extract);
    var p1 := Patch(Some(Negotiating), Some(fragments), None, None);
    db.UpdateStory(storyId, p1);
    var negotiated := NegotiateNarrative(s, agents, fragments, o.propose);
    var p2 := Patch(Some(Weaving), Some(negotiated), None, None);
    db.UpdateStory(storyId, p2);
    var woven := WeaveNarrative(s, agents, negotiated, o.chat);
    var p3 := Patch(Some(Composing), Some(woven), None, None);
    db.UpdateStory(storyId, p3);
    var finalNarrative := Compose(s.theme, woven);
    var p4 := Patch(Some(Completed), Some(woven), Some(finalNarrative), Some(now));
    db.UpdateStory(storyId, p4);
    FiveWrites(storyId, s, p0, p1, p2, p3, p4, updates0, stories0);
    assert NarrativeWrites(s, agents, o, now) == [p0, p1, p2, p3, p4];
    return Success(());
  }

  /** A single write to a stored story: the log gains one entry and the story its patch. */
  lemma OneWrite(id: string, s: Story, p: Patch, updates0: seq<(string, Patch)>, stories0: map<string, Story>)
    ensures updates0 + [(id, p)] == updates0 + Tagged(id, [p])
    ensures stories0[id := Apply(s, p)] == stories0[id := ApplyAll(s, [p])]
  {
    assert [p][..0] == [];
  }

  /** Five writes in a row to a stored story are the log entries and the patches of the five, in order. */
  lemma FiveWrites(id: string, s: Story, p0: Patch, p1: Patch, p2: Patch, p3: Patch, p4: Patch,
                   updates0: seq<(string, Patch)>, stories0: map<string, Story>)
    ensures updates0 + [(id, p0)] + [(id, p1)] + [(id, p2)] + [(id, p3)] + [(id, p4)]
            == updates0 + Tagged(id, [p0, p1, p2, p3, p4])
    ensures var m := stories0[id := Apply(s, p0)];
            var m := m[id := Apply(m[id], p1)];
            var m := m[id := Apply(m[id], p2)];
            var m := m[id := Apply(m[id], p3)];
            m[id := Apply(m[id], p4)] == stories0[id := ApplyAll(s, [p0, p1, p2, p3, p4])]
  {
    ApplyAllSnoc(s, [], p0);
    ApplyAllSnoc(s, [p0], p1);
    ApplyAllSnoc(s, [p0, p1], p2);
    ApplyAllSnoc(s, [p0, p1, p2], p3);
    ApplyAllSnoc(s, [p0, p1, p2, p3], p4);
    assert [] + [p0] == [p0];
    assert [p0] + [p1] == [p0, p1];
    assert [p0, p1] + [p2] == [p0, p1, p2];
    assert [p0, p1, p2] + [p3] == [p0, p1, p2, p3];
    assert [p0, p1, p2, p3] + [p4] == [p0, p1, p2, p3, p4];
  }

  /** The statuses after `waiting`, in lifecycle order. */
  const Lifecycle: seq<Status> := [Extracting, Negotiating, Weaving, Composing, Completed]

  /** Each status of `Lifecycle` is a later stage than the ones before it. */
  lemma LifecycleOrdered()
    ensures forall i, j :: 0 <= i < j < |Lifecycle| ==> Stage(Lifecycle[i]) < Stage(Lifecycle[j])
  {
  }

  /**
   * The statuses `runNarrative` writes: `completed` alone when no participant
   * is stored, otherwise extracting, negotiating, weaving, composing and
   * completed, in that order, each a later stage than the one before.
   */
  lemma NarrativeStatuses(s: Story, agents: seq<Agent>, o: Oracles, now: int)
    ensures var w := StatusesWritten(NarrativeWrites(s, agents, o, now));
            && w == (if agents == [] then [Completed] else Lifecycle)
            && forall i, j :: 0 <= i < j < |w| ==> Stage(w[i]) < Stage(w[j])
  {
    var ws := NarrativeWrites(s, agents, o, now);
    if agents == [] {
      StatusesWrittenSnoc([], ws[0]);
      assert [] + [ws[0]] == ws;
    } else {
      var fragments := Extraction(agents, ExtractionMessage(s), o.extract);
      var negotiated := SortByKey(Proposals(s.theme, agents, fragments, o.propose), Rank);
      var woven := Woven(s.theme, agents, negotiated, o.chat);
      assert ws == PhaseWrites(fragments, negotiated, woven, Compose(s.theme, woven), now);
      PhaseStatuses(fragments, negotiated, woven, Compose(s.theme, woven), now);
      LifecycleOrdered();
    }
  }

  /** The five updates of a run with participants write the five later statuses in order. */
  lemma PhaseStatuses(fragments: seq<Fragment>, negotiated: seq<Fragment>, woven: seq<Fragment>,
                      narrative: string, now: int)
    ensures StatusesWritten(PhaseWrites(fragments, negotiated, woven, narrative, now))
            == [Extracting, Negotiating, Weaving, Composing, Completed]
  {
    var ws := PhaseWrites(fragments, negotiated, woven, narrative, now);
    StatusesWrittenSnoc([], ws[0]);
    StatusesWrittenSnoc(ws[..1], ws[1]);
    StatusesWrittenSnoc(ws[..2], ws[2]);
    StatusesWrittenSnoc(ws[..3], ws[3]);
    StatusesWrittenSnoc(ws[..4], ws[4]);
    assert [] + [ws[0]] == ws[..1];
    assert ws[..1] + [ws[1]] == ws[..2];
    assert ws[..2] + [ws[2]] == ws[..3];
    assert ws[..3] + [ws[3]] == ws[..4];
    assert ws[..4] + [ws[4]] == ws;
  }

  /**
   * After `runNarrative` the story is completed at `now` with a non-empty
   * narrative; when no participant was stored its fragments are untouched,
   * otherwise they are the woven fragments.
   */
  lemma NarrativeOutcome(s: Story, agents: seq<Agent>, o: Oracles, now: int)
    ensures var t := ApplyAll(s, NarrativeWrites(s, agents, o, now));
            && t.status == Completed
            && t.completedAt == Some(now)
            && t.finalNarrative.Some? && t.finalNarrative.value != ""
            && t.id == s.id && t.theme == s.theme && t.participantIds == s.participantIds
            && (agents == [] ==> t.fragments == s.fragments && t.finalNarrative == Some(NoParticipants))
            && (agents != [] ==>
                  var negotiated := SortByKey(Proposals(s.theme, agents, Extraction(agents, ExtractionMessage(s), o.extract), o.propose), Rank);
                  t.fragments == Woven(s.theme, agents, negotiated, o.chat))
  {
    var ws := NarrativeWrites(s, agents, o, now);
    var front := ws[..|ws| - 1];
    assert ws == front + [ws[|ws| - 1]];
    ApplyAllSnoc(s, front, ws[|ws| - 1]);
    ApplyAllKeepsIdentity(s, ws);
    if agents != [] {
      var woven := ws[4].fragments.value;
      ComposeShape(s.theme, woven);
    }
  }

  // ----- Demo roster -----

  /** The five demo agents `seedDemoAgents` stores, stamped with the time of seeding. */
  function DemoRoster(now: int): (r: seq<Agent>)
    ensures |r| == 5
    ensures forall i, j :: 0 <= i < j < |r| ==> r[i].id != r[j].id
  {
    [Agent("demo-foodie", "吃货阿翔", "", "demo", "demo", now + 86400000,
           ["美食", "旅行", "成都", "火锅", "街头小吃"],
           ["在成都的巷子里找到一家只有本地人知道的苍蝇馆子", "凌晨三点的火锅配冰啤酒是人生巅峰"],
           10, now - 86400000),
     Agent("demo-backpacker", "背包客小鹿", "", "demo", "demo", now + 86400000,
           ["背包旅行", "青旅", "穷游", "城市探索", "摄影"],
           ["在成都的青旅认识了来自五个国家的朋友", "人民公园的茶馆里看到最真实的成都生活"],
           10, now - 172800000),
     Agent("demo-artist", "画家阿墨", "", "demo", "demo", now + 86400000,
           ["艺术", "画画", "城市素描", "文创", "美学"],
           ["在宽窄巷子写生时被大爷围观指点", "成都的灰蓝色天空有一种独特的水墨气质"],
           10, now - 259200000),
     Agent("demo-techie", "码农老张", "", "demo", "demo", now + 86400000,
           ["互联网", "创业", "科技", "咖啡", "数字游民"],
           ["成都天府软件园的咖啡馆里完成了人生第一个独立项目", "这座城市的慢节奏反而让我更高效"],
           10, now - 345600000),
     Agent("demo-local", "本地人小雨", "", "demo", "demo", now + 86400000,
           ["成都", "本地文化", "方言", "茶文化", "麻将"],
           ["作为土生土长的成都人看着这座城市变化了二十年", "最怀念的是小时候春熙路还没有商场的时候"],
           10, now - 432000000)]
  }

  /** The agents stored after upserting `roster` into `m`, one after the other. */
  function UpsertAll(m: map<string, Agent>, roster: seq<Agent>): map<string, Agent>
  {
    if roster == [] then m
    else UpsertAll(m, roster[..|roster| - 1])[roster[|roster| - 1].id := roster[|roster| - 1]]
  }

  /** The ids of `roster` not yet among `known`, in roster order: the keys the upserts append to the order. */
  function NewIds(roster: seq<Agent>, known: set<string>): seq<string>
  {
    if roster == [] then []
    else
      var a := roster[|roster| - 1];
      NewIds(roster[..|roster| - 1], known) + (if a.id in known then [] else [a.id])
  }

  /** After upserting agents with distinct ids, each is stored as given and every other stored agent is unchanged. */
  lemma UpsertAllEffect(m: map<string, Agent>, roster: seq<Agent>)
    requires forall i, j :: 0 <= i < j < |roster| ==> roster[i].id != roster[j].id
    ensures forall a :: a in roster ==> a.id in UpsertAll(m, roster) && UpsertAll(m, roster)[a.id] == a
    ensures forall k :: (k in UpsertAll(m, roster)) <==> k in m || exists a :: a in roster && a.id == k
    ensures forall k :: k in m && (forall a :: a in roster ==> a.id != k) ==> UpsertAll(m, roster)[k] == m[k]
  {
    UpsertAllStores(m, roster);
    UpsertAllKeys(m, roster);
    UpsertAllKeeps(m, roster);
  }

  /** After upserting agents with distinct ids, each is stored as given. */
  lemma {:induction false} UpsertAllStores(m: map<string, Agent>, roster: seq<Agent>)
    requires forall i, j :: 0 <= i < j < |roster| ==> roster[i].id != roster[j].id
    ensures forall a :: a in roster ==> a.id in UpsertAll(m, roster) && UpsertAll(m, roster)[a.id] == a
  {
    if roster != [] {
      var front := roster[..|roster| - 1];
      var last := roster[|roster| - 1];
      UpsertAllStores(m, front);
      forall a | a in roster ensures a.id in UpsertAll(m, roster) && UpsertAll(m, roster)[a.id] == a {
        if a != last {
          var i :| 0 <= i < |roster| && roster[i] == a;
          assert a in front;
        }
      }
    }
  }

  /** After upserting, the stored ids are the old ones and those of the roster. */
  lemma {:induction false} UpsertAllKeys(m: map<string, Agent>, roster: seq<Agent>)
    ensures forall k :: (k in UpsertAll(m, roster)) <==> k in m || exists a :: a in roster && a.id == k
  {
    if roster != [] {
      var front := roster[..|roster| - 1];
      var last := roster[|roster| - 1];
      UpsertAllKeys(m, front);
      forall k ensures (k in UpsertAll(m, roster)) <==> k in m || exists a :: a in roster && a.id == k {
        if exists a :: a in roster && a.id == k {
          var a :| a in roster && a.id == k;
          if a != last {
            var i :| 0 <= i < |roster| && roster[i] == a;
            assert a in front;
          }
        }
        if exists a :: a in front && a.id == k {
          var a :| a in front && a.id == k;
          assert a in roster;
        }
      }
    }
  }

  /** After upserting, every stored agent whose id the roster does not carry is unchanged. */
  lemma {:induction false} UpsertAllKeeps(m: map<string, Agent>, roster: seq<Agent>)
    ensures forall k :: k in m && (forall a :: a in roster ==> a.id != k) ==>
              k in UpsertAll(m, roster) && UpsertAll(m, roster)[k] == m[k]
  {
    if roster != [] {
      var front := roster[..|roster| - 1];
      UpsertAllKeeps(m, front);
      forall k | k in m && (forall a :: a in roster ==> a.id != k)
        ensures k in UpsertAll(m, roster) && UpsertAll(m, roster)[k] == m[k]
      {
        forall a | a in front ensures a.id != k {
          var i :| 0 <= i < |front| && front[i] == a;
          assert roster[i] == a;
        }
      }
    }
  }

  /** `seedDemoAgents`: upserts the five demo agents. */
  method SeedDemoAgents(db: Database, now: int)
    requires db.Valid()
    modifies db
    ensures db.Valid()
    ensures db.agents == UpsertAll(old(db.agents), DemoRoster(now))
    ensures db.agentOrder == old(db.agentOrder) + NewIds(DemoRoster(now), old(db.agents).Keys)
    ensures db.stories == old(db.stories) && db.storyOrder == old(db.storyOrder) && db.updates == old(db.updates)
  {
    UpsertRoster(db, DemoRoster(now));
  }

  /** The loop of `seedDemoAgents`: upserts agents with distinct ids one after the other. */
  method UpsertRoster(db: Database, roster: seq<Agent>)
    requires db.Valid()
    requires forall x, y :: 0 <= x < y < |roster| ==> roster[x].id != roster[y].id
    modifies db
    ensures db.Valid()
    ensures db.agents == UpsertAll(old(db.agents), roster)
    ensures db.agentOrder == old(db.agentOrder) + NewIds(roster, old(db.agents).Keys)
    ensures db.stories == old(db.stories) && db.storyOrder == old(db.storyOrder) && db.updates == old(db.updates)
  {
    for i := 0 to |roster|
      invariant db.Valid()
      invariant db.agents == UpsertAll(old(db.agents), roster[..i])
      invariant db.agentOrder == old(db.agentOrder) + NewIds(roster[..i], old(db.agents).Keys)
      invariant db.stories == old(db.stories) && db.storyOrder == old(db.storyOrder) && db.updates == old(db.updates)
    {
      ghost var order := db.agentOrder;
      ghost var seen := NewIds(roster[..i], old(db.agents).Keys);
      SeenIds(old(db.agents), roster, i);
      UpsertStep(old(db.agents), roster, i);
      db.UpsertAgent(roster[i]);
      IdsSnoc(old(db.agentOrder), seen, roster[i].id);
    }
    assert roster[..|roster|] == roster;
  }

  /** Appending one more id to an order that extends another. */
  lemma IdsSnoc(a: seq<string>, b: seq<string>, id: string)
    ensures (a + b) + [id] == a + (b + [id])
  {
  }

  /** Upserting one more agent of the roster extends the map and the new ids by that agent. */
  lemma UpsertStep(m: map<string, Agent>, roster: seq<Agent>, i: nat)
    requires i < |roster|
    ensures UpsertAll(m, roster[..i + 1]) == UpsertAll(m, roster[..i])[roster[i].id := roster[i]]
    ensures NewIds(roster[..i + 1], m.Keys)
            == NewIds(roster[..i], m.Keys) + (if roster[i].id in m.Keys then [] else [roster[i].id])
  {
    assert roster[..i + 1][..i] == roster[..i];
  }

  /** Before the `i`-th of several distinct upserts, its id is stored exactly when it was stored at the start. */
  lemma SeenIds(m: map<string, Agent>, roster: seq<Agent>, i: nat)
    requires i < |roster|
    requires forall x, y :: 0 <= x < y < |roster| ==> roster[x].id != roster[y].id
    ensures roster[i].id in UpsertAll(m, roster[..i]) <==> roster[i].id in m
  {
    var front := roster[..i];
    assert forall x, y :: 0 <= x < y < |front| ==> front[x].id != front[y].id;
    UpsertAllEffect(m, front);
    forall a | a in front ensures a.id != roster[i].id {
      var x :| 0 <= x < |front| && front[x] == a;
      assert roster[x] == a;
    }
  }
}
