/**
 * The records the pipeline stores and passes around (the `Agent`,
 * `MemoryFragment` and `Story` interfaces of lib/store.ts), the partial
 * updates `updateStory` merges into a story, and JavaScript's `value || default`
 * on optional strings.
 */
module Records {
  import opened Wrappers

  /** A participant: who it is, its credentials, its capability tags ("shades") and memory excerpts. */
  datatype Agent = Agent(
    id: string,
    name: string,
    avatarUrl: string,
    accessToken: string,
    refreshToken: string,
    tokenExpiresAt: int,
    shades: seq<string>,
    memorySnippets: seq<string>,
    credits: int,
    joinedAt: int)

  /** The lifecycle of a story. */
  datatype Status = Waiting | Extracting | Negotiating | Weaving | Composing | Completed

  /** The place of a status in the lifecycle `waiting -> extracting -> ... -> completed`. */
  function Stage(s: Status): (n: nat)
    ensures n <= 5
    ensures n == 0 <==> s == Waiting
    ensures n == 5 <==> s == Completed
  {
    match s
    case Waiting => 0
    case Extracting => 1
    case Negotiating => 2
    case Weaving => 3
    case Composing => 4
    case Completed => 5
  }

  /**
   * One agent's contribution to one story. The optional fields are absent
   * (`undefined`) until negotiation, weaving or the demo's extraction sets them.
   */
  datatype Fragment = Fragment(
    agentId: string,
    agentName: string,
    agentAvatar: string,
    title: string,
    content: string,
    emotion: string,
    timeHint: string,
    uniqueDetail: string,
    proposedPosition: Option<string>,
    connectionNote: Option<string>,
    transitionHint: Option<string>,
    refinedContent: Option<string>,
    isAIGenerated: Option<bool>)

  datatype Story = Story(
    id: string,
    theme: string,
    description: string,
    initiatorId: string,
    initiatorName: string,
    status: Status,
    participantIds: seq<string>,
    fragments: seq<Fragment>,
    finalNarrative: Option<string>,
    targetPieceCount: int,
    realPieceCount: int,
    createdAt: int,
    completedAt: Option<int>)

  /**
   * The argument of an `updateStory` call: a `Partial<Story>` holding the
   * fields the pipeline ever writes; `None` means the field is not passed.
   */
  datatype Patch = Patch(
    status: Option<Status>,
    fragments: Option<seq<Fragment>>,
    finalNarrative: Option<string>,
    completedAt: Option<int>)

  /** A patch that only moves the status. */
  function StatusPatch(s: Status): Patch
  {
    Patch(Some(s), None, None, None)
  }

  /** A patch that only replaces the fragment list. */
  function FragmentsPatch(fs: seq<Fragment>): Patch
  {
    Patch(None, Some(fs), None, None)
  }

  /** `{ ...s, ...p }`: the fields `p` carries replace those of `s`; every other field is kept. */
  function Apply(s: Story, p: Patch): (r: Story)
    ensures r.id == s.id && r.theme == s.theme && r.description == s.description
    ensures r.initiatorId == s.initiatorId && r.initiatorName == s.initiatorName
    ensures r.participantIds == s.participantIds && r.createdAt == s.createdAt
    ensures r.targetPieceCount == s.targetPieceCount && r.realPieceCount == s.realPieceCount
    ensures r.status == p.status.GetOr(s.status)
    ensures r.fragments == p.fragments.GetOr(s.fragments)
    ensures r.finalNarrative == (if p.finalNarrative.Some? then p.finalNarrative else s.finalNarrative)
    ensures r.completedAt == (if p.completedAt.Some? then p.completedAt else s.completedAt)
  {
    s.(status := p.status.GetOr(s.status),
       fragments := p.fragments.GetOr(s.fragments),
       finalNarrative := if p.finalNarrative.Some? then p.finalNarrative else s.finalNarrative,
       completedAt := if p.completedAt.Some? then p.completedAt else s.completedAt)
  }

  /** The one patch that has the effect of `p` followed by `q`: each field from `q` if it carries it, else from `p`. */
  function Merge(p: Patch, q: Patch): Patch
  {
    Patch(
      if q.status.Some? then q.status else p.status,
      if q.fragments.Some? then q.fragments else p.fragments,
      if q.finalNarrative.Some? then q.finalNarrative else p.finalNarrative,
      if q.completedAt.Some? then q.completedAt else p.completedAt)
  }

  /** Two successive updates are one merged update: the later write wins field by field. */
  lemma ApplyMerge(s: Story, p: Patch, q: Patch)
    ensures Apply(Apply(s, p), q) == Apply(s, Merge(p, q))
  {
  }

  /** Applying the same update twice is the same as applying it once. */
  lemma ApplyIdempotent(s: Story, p: Patch)
    ensures Apply(Apply(s, p), p) == Apply(s, p)
  {
  }

  /** The story after a series of updates, applied first to last. */
  function ApplyAll(s: Story, ps: seq<Patch>): Story
  {
    if ps == [] then s else Apply(ApplyAll(s, ps[..|ps| - 1]), ps[|ps| - 1])
  }

  /** The statuses a series of updates writes, in the order it writes them. */
  function StatusesWritten(ps: seq<Patch>): seq<Status>
  {
    if ps == [] then []
    else StatusesWritten(ps[..|ps| - 1]) + (if ps[|ps| - 1].status.Some? then [ps[|ps| - 1].status.value] else [])
  }

  /** After a series of updates the status is the last one written, or the old one if none was. */
  lemma {:induction false} ApplyAllStatus(s: Story, ps: seq<Patch>)
    ensures var w := StatusesWritten(ps);
            ApplyAll(s, ps).status == if w == [] then s.status else w[|w| - 1]
  {
    if ps != [] {
      ApplyAllStatus(s, ps[..|ps| - 1]);
    }
  }

  /** A series of updates never changes the story's identity, theme, participants or creation time. */
  lemma {:induction false} ApplyAllKeepsIdentity(s: Story, ps: seq<Patch>)
    ensures var r := ApplyAll(s, ps);
            r.id == s.id && r.theme == s.theme && r.description == s.description
            && r.participantIds == s.participantIds && r.createdAt == s.createdAt
            && r.initiatorId == s.initiatorId && r.initiatorName == s.initiatorName
  {
    if ps != [] {
      ApplyAllKeepsIdentity(s, ps[..|ps| - 1]);
    }
  }

  lemma ApplyAllSnoc(s: Story, ps: seq<Patch>, p: Patch)
    ensures ApplyAll(s, ps + [p]) == Apply(ApplyAll(s, ps), p)
  {
    assert (ps + [p])[..|ps|] == ps;
  }

  lemma StatusesWrittenSnoc(ps: seq<Patch>, p: Patch)
    ensures StatusesWritten(ps + [p]) == StatusesWritten(ps) + (if p.status.Some? then [p.status.value] else [])
  {
    assert (ps + [p])[..|ps|] == ps;
  }

  /** Two consecutive series of updates have the effect of the first followed by that of the second. */
  lemma {:induction false} ApplyAllAppend(s: Story, a: seq<Patch>, b: seq<Patch>)
    ensures ApplyAll(s, a + b) == ApplyAll(ApplyAll(s, a), b)
  {
    if b == [] {
      assert a + b == a;
    } else {
      var front := b[..|b| - 1];
      ApplyAllAppend(s, a, front);
      assert a + b == (a + front) + [b[|b| - 1]];
      ApplyAllSnoc(s, a + front, b[|b| - 1]);
    }
  }

  /** The statuses two consecutive series of updates write are those of the first followed by those of the second. */
  lemma {:induction false} StatusesWrittenAppend(a: seq<Patch>, b: seq<Patch>)
    ensures StatusesWritten(a + b) == StatusesWritten(a) + StatusesWritten(b)
  {
    if b != [] {
      var front := b[..|b| - 1];
      StatusesWrittenAppend(a, front);
      assert a + b == (a + front) + [b[|b| - 1]];
      StatusesWrittenSnoc(a + front, b[|b| - 1]);
      assert b == front + [b[|b| - 1]];
      StatusesWrittenSnoc(front, b[|b| - 1]);
    } else {
      assert a + b == a;
    }
  }

  /** JavaScript's `v || d` for an optional string: `v` when it is present and not empty, otherwise `d`. */
  function Or(v: Option<string>, d: string): (r: string)
    ensures r == d || (v == Some(r) && r != "")
    ensures v.Some? && v.value != "" ==> r == v.value
    ensures d != "" ==> r != ""
  {
    if v.Some? && v.value != "" then v.value else d
  }
}
