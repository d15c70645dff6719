/**
 * The elastic demo of app/api/demo/route.ts. `POST` seeds the five demo
 * agents and creates a story in which the first few of them, in the
 * canonical narrative order, count as real participants and the rest as AI
 * stand-ins. It then plays the four phases back from a table of prepared
 * memories, writing the story after every step.
 *
 * The playback is written against any table of prepared memories
 * (`presets`, a lookup by agent id); the handler passes the demo's own
 * table `PresetFor`, and `TableComplete` states what the playback needs of it.
 */
module Demo {
  import opened Wrappers
  import opened Records
  import opened Text
  import opened Sorting
  import opened Store
  import opened Orchestrator

  /** A prepared memory: what extraction, negotiation and weaving would have produced for one demo agent. */
  datatype Preset = Preset(
    title: string,
    content: string,
    emotion: string,
    timeHint: string,
    uniqueDetail: string,
    proposedPosition: string,
    connectionNote: string,
    transitionHint: string,
    refinedContent: string)

  /** The prepared memory of `demo-local`. */
  const LocalPreset: Preset := Preset(
    "春熙路的变迁",
    "作为土生土长的成都人，我见证了春熙路从满是自行车的老街变成今天的IFS商圈。小时候最爱跟外婆去春熙路的老百货大楼买年货，那时候路边还有捏糖人的手艺人。现在每次路过，看到爬在楼上的大熊猫，都会想起那些再也回不去的下午。",
    "nostalgic",
    "从小到大",
    "捏糖人的手艺人",
    "opening",
    "作为本地人可以为整个叙事铺设时间纵深",
    "从回忆过渡到现在",
    "我从小在成都长大，春熙路是我记忆的锚点。小时候跟外婆去老百货大楼买年货，路边的糖人师傅会捏一只蝴蝶放在我手心。那时候自行车铃声是成都的背景音乐。二十年后的今天，IFS的大熊猫趴在楼上，像是替我们这些老成都人守望着什么。你们来的时候看到的是一个新成都——但我想先告诉你们，这座城市的根，藏在那些消失的小巷和没有消失的味道里。")

  /** The prepared memory of `demo-foodie`. */
  const FoodiePreset: Preset := Preset(
    "凌晨三点的火锅",
    "去年夏天凌晨三点，我们在玉林路找到一家只有本地人才知道的苍蝇馆子。没有招牌，推开一扇铁门才发现里面坐满了人。牛油锅底辣得我满头大汗，但配上冰啤酒的那一刻，我确信这是人生的味觉巅峰。老板娘自己调的蘸碟，那个味道我至今都在想。",
    "excited",
    "去年夏天",
    "没有招牌的铁门",
    "middle",
    "接在本地人讲完老成都后，展示新一代的成都夜生活",
    "用味觉接续记忆",
    "小雨说的那些消失的味道，有些其实没有消失——它们只是躲起来了。去年夏天的凌晨三点，我在玉林路找到了证据：一扇没有招牌的铁门后面，藏着一家坐满本地人的苍蝇馆子。牛油锅底的辣是能钻进灵魂的那种，但冰啤酒一灌下去，辣变成了一种让人上瘾的快感。老板娘的蘸碟比任何网红店都厉害——她说配方是婆婆传下来的。那一刻我想，成都最好的东西从来不在大众点评上。")

  /** The prepared memory of `demo-backpacker`. */
  const BackpackerPreset: Preset := Preset(
    "茶馆里的下午",
    "人民公园的鹤鸣茶社彻底改变了我对\"旅行\"的理解。我本来只打算待半小时，结果坐了一整个下午。隔壁桌的大爷在下象棋，对面的阿姨在打毛线衣，掏耳朵的师傅像行为艺术家一样认真。三块钱一碗的花茶，竹椅上的阳光，那种慢，让我第一次意识到：旅行不是赶景点，是学会用别人的节奏活一天。",
    "reflective",
    "去年秋天",
    "三块钱的花茶",
    "middle",
    "从味觉过渡到生活节奏感",
    "从夜晚到白天",
    "在火锅的热气散去之后，我遇见了成都的另一面。人民公园的鹤鸣茶社里，时间有自己的速度。我本来只打算待半小时，但竹椅上的阳光、三块钱的花茶、隔壁大爷的象棋残局把我钉住了。一个掏耳朵的师傅走过来，用一种行为艺术般的严肃问我要不要试试。我拒绝了——但后来一直后悔。那个下午教会我一件事：旅行不是赶景点，是学会用别人的节奏过一天。")

  /** The prepared memory of `demo-artist`. */
  const ArtistPreset: Preset := Preset(
    "宽窄巷子的光影",
    "在宽窄巷子支起画架写生，画到一半被三个大爷围观。他们不说\"画得好\"，而是说\"这个颜色不对嘛，成都的天没得这么蓝\"。他们说得对。成都的天是一种灰蓝色，像被茶水洗过的宣纸。那天之后我调了整整一个色系——后来这组画成了我个展里最受欢迎的系列。",
    "surprising",
    "两年前冬天",
    "灰蓝色像被茶水洗过的宣纸",
    "climax",
    "从生活感受升华到艺术表达——成都的审美特质",
    "从体验到创造",
    "小鹿在茶馆学会了用成都的节奏活一天，而我试图把这种节奏画下来——但成都教训了我。在宽窄巷子写生的时候，三个大爷围过来，不是夸我，而是纠正我：\"这个颜色不对嘛，成都的天没得这么蓝。\"我抬头看天，他们说得对：成都的天是灰蓝色的，像被茶水洗过的宣纸。那天我推翻了所有调色板，重新画。后来这组\"茶水色\"的城市素描成了我个展里最受欢迎的系列。成都改变了我看颜色的方式。")

  /** The prepared memory of `demo-techie`. */
  const TechiePreset: Preset := Preset(
    "天府咖啡馆的代码",
    "在天府软件园附近的独立咖啡馆待了整整一个月，在那里完成了人生第一个独立项目。成都的房租只有深圳的三分之一，但创造力反而更高。中午散步去公园看大爷打太极，下午回来写代码效率翻倍。后来才意识到：慢不是低效，而是一种可持续的创造方式。",
    "reflective",
    "三年前",
    "看大爷打太极后写代码效率翻倍",
    "closing",
    "从艺术创造延伸到科技创造——成都的慢节奏如何催生新的可能性",
    "从创作到创业",
    "阿墨从成都的天色里找到了新的调色板，而我在这座城市找到了新的工作节奏。三年前我从深圳逃到天府软件园旁边的一家独立咖啡馆，房租省下了三分之二，但这不是重点。重点是：中午去公园看大爷打太极拳再回来写代码，效率竟然比在深圳996还高。一个月后我的第一个独立项目上线了。成都教会我一个硅谷不会教的道理——慢不是低效，而是一种可持续的创造方式。也许这就是我们五个人的记忆拼在一起想要说的：成都从不催你，但它会改变你。")

  /** The narrative order of the demo agents; the real participants are taken from its front. */
  const CanonicalOrder: seq<string> := ["demo-local", "demo-foodie", "demo-backpacker", "demo-artist", "demo-techie"]

  /** `DEMO_FRAGMENTS[id]`: the prepared memory of a demo agent, and none for any other id. */
  function PresetFor(id: string): (r: Option<Preset>)
    ensures r.Some? <==> id in CanonicalOrder
  {
    if id == "demo-local" then Some(LocalPreset)
    else if id == "demo-foodie" then Some(FoodiePreset)
    else if id == "demo-backpacker" then Some(BackpackerPreset)
    else if id == "demo-artist" then Some(ArtistPreset)
    else if id == "demo-techie" then Some(TechiePreset)
    else None
  }

  /** The canonical ids are pairwise distinct. */
  lemma CanonicalDistinct()
    ensures forall i, j :: 0 <= i < j < |CanonicalOrder| ==> CanonicalOrder[i] != CanonicalOrder[j]
  {
    assert CanonicalOrder[1][5] == 'f' && CanonicalOrder[3][5] == 'a' && CanonicalOrder[4][5] == 't';
  }

  /** A prepared field, absent when there is no prepared memory. */
  function PresetField(p: Option<Preset>, field: Preset -> string): Option<string>
  {
    if p.Some? then Some(field(p.value)) else None
  }

  /** `demo?.proposedPosition || 'middle'`: the position a table gives an id. */
  function PresetPosition(presets: string -> Option<Preset>, id: string): (r: string)
    ensures r != ""
  {
    Or(PresetField(presets(id), (q: Preset) => q.proposedPosition), "middle")
  }

  /**
   * What the playback needs of a table: a memory for every canonical id, with
   * a rewrite, and positions that rank the canonical ids in narrative order.
   */
  ghost predicate CompleteTable(presets: string -> Option<Preset>)
  {
    && (forall i :: 0 <= i < |CanonicalOrder| ==>
          presets(CanonicalOrder[i]).Some? && presets(CanonicalOrder[i]).value.refinedContent != "")
    && (forall i, j :: 0 <= i < j < |CanonicalOrder| ==>
          PositionRank(PresetPosition(presets, CanonicalOrder[i])) <= PositionRank(PresetPosition(presets, CanonicalOrder[j])))
  }

  /** The positions the demo's table proposes: opening, middle, middle, climax, closing in canonical order. */
  lemma PresetPositions()
    ensures PresetPosition(PresetFor, "demo-local") == "opening"
    ensures PresetPosition(PresetFor, "demo-foodie") == "middle"
    ensures PresetPosition(PresetFor, "demo-backpacker") == "middle"
    ensures PresetPosition(PresetFor, "demo-artist") == "climax"
    ensures PresetPosition(PresetFor, "demo-techie") == "closing"
  {
  }

  /** Every demo agent's prepared memory carries a rewrite. */
  lemma PresetRewrites()
    ensures forall i :: 0 <= i < |CanonicalOrder| ==> PresetFor(CanonicalOrder[i]).Some? && PresetFor(CanonicalOrder[i]).value.refinedContent != ""
  {
    assert LocalPreset.refinedContent != "" && FoodiePreset.refinedContent != "" && BackpackerPreset.refinedContent != "";
    assert ArtistPreset.refinedContent != "" && TechiePreset.refinedContent != "";
  }

  /** A table whose positions run opening, middle, middle, climax, closing along the canonical order, and which has a rewrite for every canonical id, is complete. */
  lemma CompleteByPositions(presets: string -> Option<Preset>)
    requires PresetPosition(presets, "demo-local") == "opening"
    requires PresetPosition(presets, "demo-foodie") == "middle"
    requires PresetPosition(presets, "demo-backpacker") == "middle"
    requires PresetPosition(presets, "demo-artist") == "climax"
    requires PresetPosition(presets, "demo-techie") == "closing"
    requires forall i :: 0 <= i < |CanonicalOrder| ==> presets(CanonicalOrder[i]).Some? && presets(CanonicalOrder[i]).value.refinedContent != ""
    ensures CompleteTable(presets)
  {
    var ranks := [1, 1, 1, 2, 3];
    assert forall i :: 0 <= i < |CanonicalOrder| ==> PositionRank(PresetPosition(presets, CanonicalOrder[i])) == ranks[i];
  }

  /** The demo's table is complete. */
  lemma TableComplete()
    ensures CompleteTable(PresetFor)
  {
    PresetPositions();
    PresetRewrites();
    CompleteByPositions(PresetFor);
  }

  // ----- The request -----

  /** The JSON body of a request; a field the body does not carry is `None`. */
  datatype Request = Request(theme: Option<string>, description: Option<string>, realAgentCount: Option<int>)

  /** The answer to a request: a 400 with an error message, or the id of the story being played back. */
  datatype Response = BadRequest(status: int, error: string) | Started(storyId: string)

  /** The error returned for a request without a theme. */
  const NoTheme: string := "请输入叙事主题"

  /**
   * What the handler reads from the clock and the random source, in the
   * order it reads them: the time of seeding, the time and the random suffix
   * in the story id, the creation time and the completion time.
   */
  datatype Clock = Clock(seedTime: int, idTime: nat, idSuffix: string, createdAt: int, completedAt: int)

  /** `Math.max(1, Math.min(requested, stored))`: the number of real participants. */
  function ClampedCount(requested: int, stored: nat): (c: int)
    ensures c >= 1
    ensures 1 <= requested <= stored ==> c == requested
    ensures requested < 1 ==> c == 1
    ensures requested > stored ==> c == if stored >= 1 then stored else 1
  {
    var m := if requested < stored then requested else stored;
    if m > 1 then m else 1
  }

  /** `CANONICAL_ORDER.slice(0, count)`: the ids of the real participants. */
  function RealIds(count: int): seq<string>
    requires count >= 1
  {
    CanonicalOrder[..if count < |CanonicalOrder| then count else |CanonicalOrder|]
  }

  /** The ids of the agents, in order. */
  function AgentIds(agents: seq<Agent>): (r: seq<string>)
    ensures |r| == |agents|
  {
    seq(|agents|, i requires 0 <= i < |agents| => agents[i].id)
  }

  /** `story-<time>-<suffix>`. */
  function StoryId(clock: Clock): string
  {
    "story-" + NatToString(clock.idTime) + "-" + clock.idSuffix
  }

  /** The story the handler creates for a theme, before any update. */
  function DemoStory(theme: string, req: Request, clock: Clock, agents: seq<Agent>): Story
  {
    Story(StoryId(clock), theme, Or(req.description, ""), "demo-user", "你", Waiting, AgentIds(agents), [], None,
          |CanonicalOrder|, ClampedCount(req.realAgentCount.GetOr(2), |agents|), clock.createdAt, None)
  }

  // ----- Phase 1: extraction, real participants first -----

  /** The suffix an AI stand-in's name carries. */
  const AiSuffix: string := "（AI 补全）"

  /** The fragment pushed for an agent from its prepared memory: a real one, or an AI stand-in named as one. */
  function PresetFragment(a: Agent, p: Preset, ai: bool): Fragment
  {
    Fragment(a.id, if ai then a.name + AiSuffix else a.name, a.avatarUrl, p.title, p.content, p.emotion,
             p.timeHint, p.uniqueDetail, None, None, None, None, Some(ai))
  }

  /**
   * What one id adds in the real pass (`ai` false) or the AI pass (`ai`
   * true): nothing when the pass skips it, when no stored agent has it, or
   * when no memory is prepared for it.
   */
  function Pick(agents: seq<Agent>, id: string, realIds: seq<string>, ai: bool,
                presets: string -> Option<Preset>): seq<Fragment>
  {
    if (id in realIds) == ai then []
    else
      var agent := FindAgent(agents, id);
      var preset := presets(id);
      if agent.None? || preset.None? then [] else [PresetFragment(agent.value, preset.value, ai)]
  }

  /** One pass over the ids, in order. */
  function Pass(agents: seq<Agent>, ids: seq<string>, realIds: seq<string>, ai: bool,
                presets: string -> Option<Preset>): seq<Fragment>
  {
    if ids == [] then []
    else Pass(agents, ids[..|ids| - 1], realIds, ai, presets) + Pick(agents, ids[|ids| - 1], realIds, ai, presets)
  }

  /** A pass over one more id that the pass skips adds nothing. */
  lemma PassSkip(agents: seq<Agent>, ids: seq<string>, k: nat, realIds: seq<string>, ai: bool,
                 presets: string -> Option<Preset>)
    requires k < |ids|
    requires (ids[k] in realIds) == ai || FindAgent(agents, ids[k]).None? || presets(ids[k]).None?
    ensures Pass(agents, ids[..k + 1], realIds, ai, presets) == Pass(agents, ids[..k], realIds, ai, presets)
  {
    assert ids[..k + 1][..k] == ids[..k];
  }

  /** A pass over one more id of its kind, stored and prepared, adds that id's fragment. */
  lemma PassTake(agents: seq<Agent>, ids: seq<string>, k: nat, realIds: seq<string>, ai: bool,
                 presets: string -> Option<Preset>)
    requires k < |ids|
    requires (ids[k] in realIds) != ai && FindAgent(agents, ids[k]).Some? && presets(ids[k]).Some?
    ensures Pass(agents, ids[..k + 1], realIds, ai, presets)
            == Pass(agents, ids[..k], realIds, ai, presets)
               + [PresetFragment(FindAgent(agents, ids[k]).value, presets(ids[k]).value, ai)]
  {
    assert ids[..k + 1][..k] == ids[..k];
  }

  /** The fragments of the extraction phase: the real pass over the canonical order, then the AI pass. */
  function DemoExtraction(agents: seq<Agent>, realIds: seq<string>, presets: string -> Option<Preset>): seq<Fragment>
  {
    Pass(agents, CanonicalOrder, realIds, false, presets) + Pass(agents, CanonicalOrder, realIds, true, presets)
  }

  /** An AI stand-in, as the composition tells them apart. */
  predicate IsAi(f: Fragment)
  {
    f.isAIGenerated == Some(true)
  }

  /** Every fragment of a pass carries that pass's flag and comes from an id of that pass. */
  lemma {:induction false} PassFlags(agents: seq<Agent>, ids: seq<string>, realIds: seq<string>, ai: bool,
                                     presets: string -> Option<Preset>)
    ensures forall f :: f in Pass(agents, ids, realIds, ai, presets) ==>
              f.isAIGenerated == Some(ai) && (f.agentId in realIds <==> !ai) && f.agentId in ids
  {
    if ids != [] {
      var front := ids[..|ids| - 1];
      PassFlags(agents, front, realIds, ai, presets);
      forall f | f in Pass(agents, ids, realIds, ai, presets)
        ensures f.isAIGenerated == Some(ai) && (f.agentId in realIds <==> !ai) && f.agentId in ids
      {
        if f in Pass(agents, front, realIds, ai, presets) {
          assert f.agentId in front;
        }
      }
    }
  }

  /**
   * Extraction puts every real fragment before every AI stand-in; each is
   * flagged, and it is an AI stand-in exactly when its id is not a real one.
   */
  lemma ExtractionRealFirst(agents: seq<Agent>, realIds: seq<string>, presets: string -> Option<Preset>)
    ensures var fs := DemoExtraction(agents, realIds, presets);
            && (forall i :: 0 <= i < |fs| ==>
                  fs[i].isAIGenerated.Some? && (IsAi(fs[i]) <==> fs[i].agentId !in realIds)
                  && fs[i].agentId in CanonicalOrder)
            && (forall i, j :: 0 <= i < j < |fs| && IsAi(fs[i]) ==> IsAi(fs[j]))
  {
    var reals := Pass(agents, CanonicalOrder, realIds, false, presets);
    var ais := Pass(agents, CanonicalOrder, realIds, true, presets);
    PassFlags(agents, CanonicalOrder, realIds, false, presets);
    PassFlags(agents, CanonicalOrder, realIds, true, presets);
    var fs := reals + ais;
    forall i | 0 <= i < |fs|
      ensures fs[i].isAIGenerated.Some? && (IsAi(fs[i]) <==> fs[i].agentId !in realIds) && fs[i].agentId in CanonicalOrder
      ensures IsAi(fs[i]) <==> i >= |reals|
    {
      if i < |reals| {
        assert fs[i] in reals;
      } else {
        assert fs[i] == ais[i - |reals|];
        assert fs[i] in ais;
      }
    }
  }

  /** Every demo agent is stored. */
  predicate AllStored(agents: seq<Agent>)
  {
    forall i :: 0 <= i < |CanonicalOrder| ==> FindAgent(agents, CanonicalOrder[i]).Some?
  }

  /** Every id of `ids` has a stored agent and a prepared memory. */
  predicate Prepared(agents: seq<Agent>, ids: seq<string>, presets: string -> Option<Preset>)
  {
    forall i :: 0 <= i < |ids| ==> FindAgent(agents, ids[i]).Some? && presets(ids[i]).Some?
  }

  /** The fragments extraction yields for `ids` when every one is prepared and the first `m` are real. */
  function Expected(agents: seq<Agent>, ids: seq<string>, m: nat, presets: string -> Option<Preset>): (r: seq<Fragment>)
    requires Prepared(agents, ids, presets)
    ensures |r| == |ids|
  {
    seq(|ids|, i requires 0 <= i < |ids| =>
      PresetFragment(FindAgent(agents, ids[i]).value, presets(ids[i]).value, i >= m))
  }

  /** A pass over prepared distinct ids adds the `j`-th expected fragment exactly when `j` is of its kind. */
  lemma PickPrepared(agents: seq<Agent>, ids: seq<string>, j: nat, m: nat, ai: bool, presets: string -> Option<Preset>)
    requires Prepared(agents, ids, presets) && j < |ids| && m <= |ids|
    requires forall x, y :: 0 <= x < y < |ids| ==> ids[x] != ids[y]
    ensures Pick(agents, ids[j], ids[..m], ai, presets)
            == if (j >= m) == ai then [Expected(agents, ids, m, presets)[j]] else []
  {
    if j < m {
      assert ids[..m][j] == ids[j];
    }
  }

  /** A pass over one more id adds what that id adds. */
  lemma PassStep(agents: seq<Agent>, ids: seq<string>, k: nat, realIds: seq<string>, ai: bool,
                 presets: string -> Option<Preset>)
    requires k < |ids|
    ensures Pass(agents, ids[..k + 1], realIds, ai, presets)
            == Pass(agents, ids[..k], realIds, ai, presets) + Pick(agents, ids[k], realIds, ai, presets)
  {
    assert ids[..k + 1][..k] == ids[..k];
  }

  /** A piece of a sequence extended by one more element. */
  lemma SliceSnoc<T>(s: seq<T>, i: nat, j: nat)
    requires i <= j < |s|
    ensures s[i..j + 1] == s[i..j] + [s[j]]
  {
  }

  /** The real pass over the first `k` of prepared distinct ids yields the expected fragments up to the `m` real ones. */
  lemma {:induction false} RealPass(agents: seq<Agent>, ids: seq<string>, m: nat, k: nat, presets: string -> Option<Preset>)
    requires Prepared(agents, ids, presets) && m <= |ids| && k <= |ids|
    requires forall x, y :: 0 <= x < y < |ids| ==> ids[x] != ids[y]
    ensures Pass(agents, ids[..k], ids[..m], false, presets)
            == Expected(agents, ids, m, presets)[0..if k < m then k else m]
  {
    if k > 0 {
      RealPass(agents, ids, m, k - 1, presets);
      PassStep(agents, ids, k - 1, ids[..m], false, presets);
      PickPrepared(agents, ids, k - 1, m, false, presets);
      var full := Expected(agents, ids, m, presets);
      if k - 1 < m {
        SliceSnoc(full, 0, k - 1);
      } else {
        assert Pass(agents, ids[..k - 1], ids[..m], false, presets) + [] == Pass(agents, ids[..k - 1], ids[..m], false, presets);
      }
    } else {
      assert ids[..0] == [];
    }
  }

  /** The AI pass over the first `k` of prepared distinct ids yields the expected fragments from the `m`-th up to the `k`-th. */
  lemma {:induction false} AiPass(agents: seq<Agent>, ids: seq<string>, m: nat, k: nat, presets: string -> Option<Preset>)
    requires Prepared(agents, ids, presets) && m <= |ids| && k <= |ids|
    requires forall x, y :: 0 <= x < y < |ids| ==> ids[x] != ids[y]
    ensures Pass(agents, ids[..k], ids[..m], true, presets)
            == Expected(agents, ids, m, presets)[m..if k < m then m else k]
  {
    if k > 0 {
      AiPass(agents, ids, m, k - 1, presets);
      PassStep(agents, ids, k - 1, ids[..m], true, presets);
      PickPrepared(agents, ids, k - 1, m, true, presets);
      var full := Expected(agents, ids, m, presets);
      if k - 1 >= m {
        SliceSnoc(full, m, k - 1);
      } else {
        assert Pass(agents, ids[..k - 1], ids[..m], true, presets) + [] == Pass(agents, ids[..k - 1], ids[..m], true, presets);
      }
    } else {
      assert ids[..0] == [];
    }
  }

  /** With every demo agent stored, extraction yields one fragment per canonical id, in canonical order, the real ones first. */
  lemma ExtractionOfAllStored(agents: seq<Agent>, count: int, presets: string -> Option<Preset>)
    requires AllStored(agents) && CompleteTable(presets) && count >= 1
    ensures Prepared(agents, CanonicalOrder, presets)
    ensures DemoExtraction(agents, RealIds(count), presets)
            == Expected(agents, CanonicalOrder, |RealIds(count)|, presets)
  {
    var m := |RealIds(count)|;
    var ids := CanonicalOrder;
    PreparedOfAllStored(agents, presets);
    CanonicalDistinct();
    RealPass(agents, ids, m, |ids|, presets);
    AiPass(agents, ids, m, |ids|, presets);
    assert ids[..|ids|] == ids;
    var full := Expected(agents, ids, m, presets);
    SplitJoin(full, m);
  }

  /** With every demo agent stored and a complete table, every canonical id is prepared. */
  lemma PreparedOfAllStored(agents: seq<Agent>, presets: string -> Option<Preset>)
    requires AllStored(agents) && CompleteTable(presets)
    ensures Prepared(agents, CanonicalOrder, presets)
  {
  }

  /** A sequence is its first `m` elements followed by the rest. */
  lemma SplitJoin<T>(s: seq<T>, m: nat)
    requires m <= |s|
    ensures s[..m] + s[m..] == s
  {
  }

  // ----- Phase 2: negotiation from the table -----

  /** A fragment after negotiation: the position, connection and transition its prepared memory gives, or `middle` and empty text. */
  function Negotiated(f: Fragment, presets: string -> Option<Preset>): (g: Fragment)
    ensures SameExceptPosition(g, f)
    ensures g.proposedPosition.Some? && g.proposedPosition.value != ""
    ensures g.connectionNote.Some? && g.transitionHint.Some?
    ensures g.proposedPosition == Some(PresetPosition(presets, f.agentId))
    ensures presets(f.agentId).Some? ==> g.connectionNote == Some(presets(f.agentId).value.connectionNote)
    ensures presets(f.agentId).Some? ==> g.transitionHint == Some(presets(f.agentId).value.transitionHint)
    ensures presets(f.agentId).None? ==> g.connectionNote == Some("") && g.transitionHint == Some("")
    ensures Rank(g) == PositionRank(PresetPosition(presets, f.agentId))
  {
    var p := presets(f.agentId);
    f.(proposedPosition := Some(PresetPosition(presets, f.agentId)),
       connectionNote := Some(Or(PresetField(p, (q: Preset) => q.connectionNote), "")),
       transitionHint := Some(Or(PresetField(p, (q: Preset) => q.transitionHint), "")))
  }

  /** `fragments.map(...)` of the negotiation phase. */
  function NegotiatedAll(fragments: seq<Fragment>, presets: string -> Option<Preset>): (r: seq<Fragment>)
    ensures |r| == |fragments|
  {
    seq(|fragments|, i requires 0 <= i < |fragments| => Negotiated(fragments[i], presets))
  }

  /** The fragments of the negotiation phase: the table's proposals, sorted stably by the comparator as written, `Rank`. */
  function DemoNegotiation(fragments: seq<Fragment>, presets: string -> Option<Preset>): seq<Fragment>
  {
    SortByKey(NegotiatedAll(fragments, presets), Rank)
  }

  /** When the table's positions are in narrative order, the sort keeps fragments in canonical order where they are. */
  lemma NegotiationKeepsCanonicalOrder(fragments: seq<Fragment>, presets: string -> Option<Preset>)
    requires CompleteTable(presets)
    requires |fragments| == |CanonicalOrder|
    requires forall i :: 0 <= i < |fragments| ==> fragments[i].agentId == CanonicalOrder[i]
    ensures DemoNegotiation(fragments, presets) == NegotiatedAll(fragments, presets)
  {
    var n := NegotiatedAll(fragments, presets);
    assert SortedBy(n, Rank);
    SortByKeyOfSorted(n, Rank);
  }

  /** The intended key of a negotiated fragment is that of the position the table gives its teller. */
  lemma IntendedRankNegotiated(f: Fragment, presets: string -> Option<Preset>)
    ensures IntendedRank(Negotiated(f, presets)) == IntendedPositionRank(PresetPosition(presets, f.agentId))
  {
  }

  /**
   * On a table whose positions run opening, middle, middle, climax, closing,
   * the intended key also leaves fragments in canonical order where they are:
   * the rank of `opening` makes no difference to them.
   */
  lemma IntendedKeyKeepsCanonicalOrder(fragments: seq<Fragment>, presets: string -> Option<Preset>)
    requires PresetPosition(presets, "demo-local") == "opening"
    requires PresetPosition(presets, "demo-foodie") == "middle"
    requires PresetPosition(presets, "demo-backpacker") == "middle"
    requires PresetPosition(presets, "demo-artist") == "climax"
    requires PresetPosition(presets, "demo-techie") == "closing"
    requires |fragments| == |CanonicalOrder|
    requires forall i :: 0 <= i < |fragments| ==> fragments[i].agentId == CanonicalOrder[i]
    ensures SortByKey(NegotiatedAll(fragments, presets), IntendedRank) == NegotiatedAll(fragments, presets)
  {
    var n := NegotiatedAll(fragments, presets);
    IntendedTableRanks(presets);
    forall i, j | 0 <= i < j < |n|
      ensures IntendedRank(n[i]) <= IntendedRank(n[j])
    {
      IntendedRankNegotiated(fragments[i], presets);
      IntendedRankNegotiated(fragments[j], presets);
    }
    SortByKeyOfSorted(n, IntendedRank);
  }

  /** The intended key ranks the canonical ids in narrative order on such a table. */
  lemma IntendedTableRanks(presets: string -> Option<Preset>)
    requires PresetPosition(presets, "demo-local") == "opening"
    requires PresetPosition(presets, "demo-foodie") == "middle"
    requires PresetPosition(presets, "demo-backpacker") == "middle"
    requires PresetPosition(presets, "demo-artist") == "climax"
    requires PresetPosition(presets, "demo-techie") == "closing"
    ensures forall i, j :: 0 <= i < j < |CanonicalOrder| ==>
              IntendedPositionRank(PresetPosition(presets, CanonicalOrder[i])) <= IntendedPositionRank(PresetPosition(presets, CanonicalOrder[j]))
  {
    var ranks := [0, 1, 1, 2, 3];
    assert forall i :: 0 <= i < |CanonicalOrder| ==> IntendedPositionRank(PresetPosition(presets, CanonicalOrder[i])) == ranks[i];
  }

  /** On the demo's own table, sorting the proposals by the intended key gives the order the comparator as written gives. */
  lemma DemoTableIntendedKeyAgrees(fragments: seq<Fragment>)
    requires |fragments| == |CanonicalOrder|
    requires forall i :: 0 <= i < |fragments| ==> fragments[i].agentId == CanonicalOrder[i]
    ensures SortByKey(NegotiatedAll(fragments, PresetFor), IntendedRank) == DemoNegotiation(fragments, PresetFor)
  {
    PresetPositions();
    IntendedKeyKeepsCanonicalOrder(fragments, PresetFor);
    TableComplete();
    NegotiationKeepsCanonicalOrder(fragments, PresetFor);
  }

  // ----- Phase 3: weaving from the table -----

  /** A fragment after weaving: the prepared rewrite of its memory, or its own text when there is none. */
  function Refined(f: Fragment, presets: string -> Option<Preset>): (g: Fragment)
    ensures g == f.(refinedContent := g.refinedContent)
    ensures g.refinedContent.Some?
    ensures presets(f.agentId).None? ==> g.refinedContent == Some(f.content)
    ensures presets(f.agentId).Some? && presets(f.agentId).value.refinedContent != "" ==>
              g.refinedContent == Some(presets(f.agentId).value.refinedContent)
    ensures presets(f.agentId).Some? && presets(f.agentId).value.refinedContent == "" ==> g.refinedContent == Some(f.content)
  {
    f.(refinedContent := Some(Or(PresetField(presets(f.agentId), (q: Preset) => q.refinedContent), f.content)))
  }

  /** The fragments of the weaving phase. */
  function DemoWeaving(negotiated: seq<Fragment>, presets: string -> Option<Preset>): (r: seq<Fragment>)
    ensures |r| == |negotiated|
  {
    seq(|negotiated|, i requires 0 <= i < |negotiated| => Refined(negotiated[i], presets))
  }

  // ----- Phase 4: composition -----

  /** `woven.filter(f => !f.isAIGenerated).length`. */
  function RealCount(fs: seq<Fragment>): nat
  {
    if fs == [] then 0 else RealCount(fs[..|fs| - 1]) + (if IsAi(fs[|fs| - 1]) then 0 else 1)
  }

  /** `woven.filter(f => f.isAIGenerated).length`. */
  function AiCount(fs: seq<Fragment>): nat
  {
    if fs == [] then 0 else AiCount(fs[..|fs| - 1]) + (if IsAi(fs[|fs| - 1]) then 1 else 0)
  }

  /** Every fragment is counted exactly once, as real or as an AI stand-in. */
  lemma {:induction false} CountsAddUp(fs: seq<Fragment>)
    ensures RealCount(fs) + AiCount(fs) == |fs|
  {
    if fs != [] {
      CountsAddUp(fs[..|fs| - 1]);
    }
  }

  /** When the AI stand-ins are exactly the fragments from the `m`-th on, `m` are real and the rest are AI. */
  lemma {:induction false} CountsOfSplit(fs: seq<Fragment>, m: nat)
    requires m <= |fs|
    requires forall i :: 0 <= i < |fs| ==> (IsAi(fs[i]) <==> i >= m)
    ensures RealCount(fs) == m && AiCount(fs) == |fs| - m
  {
    if |fs| > m {
      CountsOfSplit(fs[..|fs| - 1], m);
    } else if fs != [] {
      CountsOfSplit(fs[..|fs| - 1], m - 1);
    }
  }

  /** `d * a <= d * b` for `a <= b`. */
  lemma MulMonotone(d: nat, a: nat, b: nat)
    requires a <= b
    ensures d * a <= d * b
  {
    var e: nat := b - a;
    assert d * b == d * a + d * e;
  }

  /** `Math.round(real / total * 100)`: the completion percentage, halves rounded up. */
  function Percent(realCount: nat, total: nat): (p: nat)
    requires total > 0
    ensures (2 * total) * p <= 200 * realCount + total < (2 * total) * (p + 1)
    ensures realCount <= total ==> p <= 100
  {
    var d := 2 * total;
    var x := 200 * realCount + total;
    var p := x / d;
    assert d * p + x % d == x;
    assert d * (p + 1) == d * p + d;
    assert realCount <= total ==> p <= 100 by {
      if realCount <= total && p > 100 {
        MulMonotone(d, 101, p);
        assert false;
      }
    }
    p
  }

  /** Out of five pieces, each real one is worth twenty percent. */
  lemma PercentOfFive(realCount: nat)
    ensures Percent(realCount, 5) == 20 * realCount
  {
  }

  /** The percentage as the template renders it; `NaN` when there is no fragment at all. */
  function PercentText(realCount: nat, total: nat): string
  {
    if total == 0 then "NaN" else NatToString(Percent(realCount, total))
  }

  /** The mark in front of a part: a crystal ball for an AI stand-in, a puzzle piece for a real memory. */
  function Label(f: Fragment): string
  {
    if IsAi(f) then "🔮" else "🧩"
  }

  /** The part of one fragment: its mark, teller and time, then its text. */
  function DemoBlock(f: Fragment): string
  {
    "### " + Label(f) + " " + f.agentName + "\U{3000}_" + f.timeHint + "_\n\n" + Body(f)
  }

  function DemoBlocks(woven: seq<Fragment>): (r: seq<string>)
    ensures |r| == |woven|
  {
    seq(|woven|, i requires 0 <= i < |woven| => DemoBlock(woven[i]))
  }

  /** The heading and the tally line, up to the first divider. */
  function DemoHead(theme: string, n: nat, realCount: nat, ai: nat): string
  {
    "# " + theme + Tally(n, realCount, ai)
  }

  /** The tally under the heading: pieces, real ones, AI ones and the completion percentage. */
  function Tally(n: nat, realCount: nat, ai: nat): string
  {
    "\n\n_" + NatToString(n) + " 段记忆，" + NatToString(realCount) + " 块真人拼图 + "
    + NatToString(ai) + " 块 AI 补全 · 完成度 " + PercentText(realCount, n) + "%_" + Divider
  }

  /** The closing divider and the note on where the memories came from. */
  function DemoFoot(realCount: nat, ai: nat): string
  {
    Divider + "> 🧩 本叙事中 " + NatToString(realCount) + " 段来自真人 AI 分身的真实记忆，" + NatToString(ai) + DemoClosing
  }

  const DemoClosing: string := " 段由 AI 想象补全。当更多真人加入替换 🔮 拼图时，叙事会变得更加真实和丰富。"

  /** The final narrative of the demo. */
  function DemoNarrative(theme: string, woven: seq<Fragment>): string
  {
    DemoHead(theme, |woven|, RealCount(woven), AiCount(woven)) + Join(DemoBlocks(woven), Divider)
    + DemoFoot(RealCount(woven), AiCount(woven))
  }

  /** The narrative starts with the theme as a heading. */
  lemma DemoNarrativeShape(theme: string, woven: seq<Fragment>)
    ensures StartsWith(DemoNarrative(theme, woven), "# " + theme)
  {
    var head := "# " + theme;
    var tally := Tally(|woven|, RealCount(woven), AiCount(woven));
    var rest := Join(DemoBlocks(woven), Divider) + DemoFoot(RealCount(woven), AiCount(woven));
    PrefixOfAppend(head, tally);
    PrefixOfAppend(head + tally, rest);
    PrefixTransitive(head + tally + rest, head + tally, head);
  }

  // ----- The updates of the playback -----

  /** The fragment writes of the extraction phase: after each push, the list so far. */
  function Snapshots(fragments: seq<Fragment>): (r: seq<Patch>)
    ensures |r| == |fragments|
  {
    if fragments == [] then []
    else Snapshots(fragments[..|fragments| - 1]) + [FragmentsPatch(fragments)]
  }

  /**
   * A poller sees the fragments arrive one at a time: the `i`-th write holds
   * the first `i + 1` fragments, so each write extends the one before, and
   * none of them moves the status.
   */
  lemma {:induction false} SnapshotsGrow(fragments: seq<Fragment>)
    ensures var w := Snapshots(fragments);
            forall i :: 0 <= i < |w| ==> w[i] == FragmentsPatch(fragments[..i + 1])
    ensures StatusesWritten(Snapshots(fragments)) == []
  {
    if fragments != [] {
      var front := fragments[..|fragments| - 1];
      SnapshotsGrow(front);
      var w := Snapshots(fragments);
      forall i | 0 <= i < |w| ensures w[i] == FragmentsPatch(fragments[..i + 1]) {
        if i < |front| {
          assert w[i] == Snapshots(front)[i];
          assert fragments[..i + 1] == front[..i + 1];
        } else {
          assert fragments[..i + 1] == fragments;
        }
      }
      StatusesWrittenSnoc(Snapshots(front), FragmentsPatch(fragments));
    }
  }

  /** The updates after extraction, given what each later phase produced. */
  function ClosingWrites(negotiated: seq<Fragment>, woven: seq<Fragment>, narrative: string, completedAt: int): seq<Patch>
  {
    [StatusPatch(Negotiating), FragmentsPatch(negotiated), StatusPatch(Weaving), FragmentsPatch(woven),
     StatusPatch(Composing), Patch(Some(Completed), Some(woven), Some(narrative), Some(completedAt))]
  }

  /** Every update the playback makes to its story, in order. */
  function DemoWrites(theme: string, fragments: seq<Fragment>, completedAt: int, presets: string -> Option<Preset>): seq<Patch>
  {
    var negotiated := DemoNegotiation(fragments, presets);
    var woven := DemoWeaving(negotiated, presets);
    [StatusPatch(Extracting)] + Snapshots(fragments)
    + ClosingWrites(negotiated, woven, DemoNarrative(theme, woven), completedAt)
  }

  /** The updates after extraction write the four later statuses, in order. */
  lemma ClosingStatuses(negotiated: seq<Fragment>, woven: seq<Fragment>, narrative: string, completedAt: int)
    ensures StatusesWritten(ClosingWrites(negotiated, woven, narrative, completedAt))
            == [Negotiating, Weaving, Composing, Completed]
  {
    var ws := ClosingWrites(negotiated, woven, narrative, completedAt);
    StatusesWrittenSnoc([], ws[0]);
    StatusesWrittenSnoc(ws[..1], ws[1]);
    StatusesWrittenSnoc(ws[..2], ws[2]);
    StatusesWrittenSnoc(ws[..3], ws[3]);
    StatusesWrittenSnoc(ws[..4], ws[4]);
    StatusesWrittenSnoc(ws[..5], ws[5]);
    assert [] + [ws[0]] == ws[..1];
    assert ws[..1] + [ws[1]] == ws[..2];
    assert ws[..2] + [ws[2]] == ws[..3];
    assert ws[..3] + [ws[3]] == ws[..4];
    assert ws[..4] + [ws[4]] == ws[..5];
    assert ws[..5] + [ws[5]] == ws;
  }

  /** The statuses the playback writes, whatever the later phases produce. */
  lemma {:induction false} PlaybackStatuses(fragments: seq<Fragment>, negotiated: seq<Fragment>, woven: seq<Fragment>,
                                            narrative: string, completedAt: int)
    ensures StatusesWritten([StatusPatch(Extracting)] + Snapshots(fragments)
                            + ClosingWrites(negotiated, woven, narrative, completedAt)) == Lifecycle
  {
    var closing := ClosingWrites(negotiated, woven, narrative, completedAt);
    var opening := [StatusPatch(Extracting)];
    StatusesWrittenAppend(opening + Snapshots(fragments), closing);
    StatusesWrittenAppend(opening, Snapshots(fragments));
    StatusesWrittenSnoc([], StatusPatch(Extracting));
    assert [] + [StatusPatch(Extracting)] == opening;
    SnapshotsGrow(fragments);
    ClosingStatuses(negotiated, woven, narrative, completedAt);
  }

  /** The playback writes the five later statuses in lifecycle order, however many fragments extraction pushed. */
  lemma DemoStatuses(theme: string, fragments: seq<Fragment>, completedAt: int, presets: string -> Option<Preset>)
    ensures var w := StatusesWritten(DemoWrites(theme, fragments, completedAt, presets));
            && w == [Extracting, Negotiating, Weaving, Composing, Completed]
            && forall i, j :: 0 <= i < j < |w| ==> Stage(w[i]) < Stage(w[j])
  {
    var negotiated := DemoNegotiation(fragments, presets);
    var woven := DemoWeaving(negotiated, presets);
    PlaybackStatuses(fragments, negotiated, woven, DemoNarrative(theme, woven), completedAt);
    LifecycleOrdered();
  }

  /** Updates never touch the piece counts. */
  lemma {:induction false} PieceCountsKept(s: Story, ps: seq<Patch>)
    ensures ApplyAll(s, ps).realPieceCount == s.realPieceCount && ApplyAll(s, ps).targetPieceCount == s.targetPieceCount
  {
    if ps != [] {
      PieceCountsKept(s, ps[..|ps| - 1]);
    }
  }

  /**
   * After the playback the story is completed at the given time, holds the
   * woven fragments and the narrative, and keeps its identity and counts.
   */
  lemma DemoOutcome(s: Story, fragments: seq<Fragment>, completedAt: int, presets: string -> Option<Preset>)
    ensures var t := ApplyAll(s, DemoWrites(s.theme, fragments, completedAt, presets));
            var woven := DemoWeaving(DemoNegotiation(fragments, presets), presets);
            && t.status == Completed
            && t.completedAt == Some(completedAt)
            && t.fragments == woven
            && t.finalNarrative == Some(DemoNarrative(s.theme, woven))
            && StartsWith(t.finalNarrative.value, "# " + s.theme)
            && t.id == s.id && t.theme == s.theme && t.participantIds == s.participantIds
            && t.realPieceCount == s.realPieceCount && t.targetPieceCount == s.targetPieceCount
  {
    var negotiated := DemoNegotiation(fragments, presets);
    var woven := DemoWeaving(negotiated, presets);
    var narrative := DemoNarrative(s.theme, woven);
    var opening := [StatusPatch(Extracting)] + Snapshots(fragments);
    var closing := ClosingWrites(negotiated, woven, narrative, completedAt);
    assert DemoWrites(s.theme, fragments, completedAt, presets) == opening + closing;
    ApplyAllAppend(s, opening, closing);
    var mid := ApplyAll(s, opening);
    ClosingApplied(mid, negotiated, woven, narrative, completedAt);
    ApplyAllKeepsIdentity(s, opening);
    PieceCountsKept(s, opening);
    DemoNarrativeShape(s.theme, woven);
  }

  /**
   * With every demo agent stored and a complete table, the playback tells
   * the five memories in canonical order: the first `m` (the requested count,
   * capped at 5) as real memories, the rest as AI stand-ins named as such,
   * each in its prepared rewrite; the tally counts `m` real and `5 - m` AI
   * pieces, at twenty percent each.
   */
  lemma DemoPlayback(agents: seq<Agent>, count: int, presets: string -> Option<Preset>)
    requires AllStored(agents) && CompleteTable(presets) && count >= 1
    ensures var m := if count < 5 then count else 5;
            var woven := DemoWeaving(DemoNegotiation(DemoExtraction(agents, RealIds(count), presets), presets), presets);
            && |woven| == 5
            && (forall i :: 0 <= i < 5 ==>
                  var a := FindAgent(agents, CanonicalOrder[i]).value;
                  var p := presets(CanonicalOrder[i]).value;
                  && woven[i].agentId == CanonicalOrder[i]
                  && (IsAi(woven[i]) <==> i >= m)
                  && woven[i].agentName == (if i >= m then a.name + AiSuffix else a.name)
                  && woven[i].content == p.content
                  && woven[i].refinedContent == Some(p.refinedContent))
            && RealCount(woven) == m && AiCount(woven) == 5 - m
            && Percent(RealCount(woven), |woven|) == 20 * m
  {
    var m := |RealIds(count)|;
    ExtractionOfAllStored(agents, count, presets);
    var full := Expected(agents, CanonicalOrder, m, presets);
    forall i | 0 <= i < 5 ensures full[i].agentId == CanonicalOrder[i] {
      assert FindAgent(agents, CanonicalOrder[i]).value.id == CanonicalOrder[i];
    }
    NegotiationKeepsCanonicalOrder(full, presets);
    var woven := DemoWeaving(NegotiatedAll(full, presets), presets);
    forall i | 0 <= i < 5
      ensures var a := FindAgent(agents, CanonicalOrder[i]).value;
              var p := presets(CanonicalOrder[i]).value;
              && woven[i].agentId == CanonicalOrder[i]
              && (IsAi(woven[i]) <==> i >= m)
              && woven[i].agentName == (if i >= m then a.name + AiSuffix else a.name)
              && woven[i].content == p.content
              && woven[i].refinedContent == Some(p.refinedContent)
    {
      PlayedAt(agents, m, presets, i);
    }
    CountsOfSplit(woven, m);
    PercentOfFive(m);
  }

  /** The `i`-th fragment told when every canonical id is prepared and the first `m` are real. */
  lemma PlayedAt(agents: seq<Agent>, m: nat, presets: string -> Option<Preset>, i: nat)
    requires Prepared(agents, CanonicalOrder, presets) && CompleteTable(presets) && i < 5
    ensures var w := DemoWeaving(NegotiatedAll(Expected(agents, CanonicalOrder, m, presets), presets), presets)[i];
            var a := FindAgent(agents, CanonicalOrder[i]).value;
            var p := presets(CanonicalOrder[i]).value;
            && w.agentId == CanonicalOrder[i]
            && (IsAi(w) <==> i >= m)
            && w.agentName == (if i >= m then a.name + AiSuffix else a.name)
            && w.content == p.content
            && w.refinedContent == Some(p.refinedContent)
  {
    var a := FindAgent(agents, CanonicalOrder[i]).value;
    var p := presets(CanonicalOrder[i]).value;
    var e := Expected(agents, CanonicalOrder, m, presets)[i];
    assert e == PresetFragment(a, p, i >= m);
    assert a.id == CanonicalOrder[i];
    var n := Negotiated(e, presets);
    assert NegotiatedAll(Expected(agents, CanonicalOrder, m, presets), presets)[i] == n;
    assert p.refinedContent != "";
  }

  /**
   * The story's real piece count is the clamped count, not the number of
   * real memories told: with more than five agents stored and more than five
   * requested, it exceeds the target count although only five are told.
   */
  lemma RealPieceCountUncapped(theme: string, req: Request, clock: Clock, agents: seq<Agent>,
                               presets: string -> Option<Preset>)
    requires AllStored(agents) && CompleteTable(presets)
    ensures var s := DemoStory(theme, req, clock, agents);
            var woven := DemoWeaving(DemoNegotiation(DemoExtraction(agents, RealIds(s.realPieceCount), presets), presets), presets);
            && RealCount(woven) == (if s.realPieceCount < 5 then s.realPieceCount else 5)
            && (req.realAgentCount.GetOr(2) > 5 && |agents| > 5 ==> s.realPieceCount > s.targetPieceCount)
  {
    var s := DemoStory(theme, req, clock, agents);
    DemoPlayback(agents, s.realPieceCount, presets);
  }

  // ----- The handler -----

  /** One more pushed fragment adds one write of the list so far. */
  lemma SnapshotsSnoc(fragments: seq<Fragment>, f: Fragment)
    ensures Snapshots(fragments + [f]) == Snapshots(fragments) + [FragmentsPatch(fragments + [f])]
  {
    assert (fragments + [f])[..|fragments|] == fragments;
  }

  /** The story during extraction: `extracting`, with the fragments pushed so far once there is one. */
  function Extracted(s: Story, fragments: seq<Fragment>): Story
  {
    if fragments == [] then s.(status := Extracting) else s.(status := Extracting, fragments := fragments)
  }

  /** The writes of the extraction phase leave the story in its extraction state. */
  lemma {:induction false} ExtractedState(s: Story, fragments: seq<Fragment>)
    ensures ApplyAll(s, [StatusPatch(Extracting)] + Snapshots(fragments)) == Extracted(s, fragments)
  {
    if fragments == [] {
      ApplyAllSnoc(s, [], StatusPatch(Extracting));
      assert [StatusPatch(Extracting)] + Snapshots(fragments) == [] + [StatusPatch(Extracting)];
    } else {
      var front := fragments[..|fragments| - 1];
      ExtractedState(s, front);
      SnapshotsSnoc(front, fragments[|fragments| - 1]);
      assert front + [fragments[|fragments| - 1]] == fragments;
      ApplyAllSnoc(s, [StatusPatch(Extracting)] + Snapshots(front), FragmentsPatch(fragments));
      assert [StatusPatch(Extracting)] + Snapshots(front) + [FragmentsPatch(fragments)]
             == [StatusPatch(Extracting)] + Snapshots(fragments);
    }
  }

  /** The log and the stored story after the extraction writes for `fragments`. */
  ghost predicate ExtractionLogged(db: Database, s: Story, fragments: seq<Fragment>,
                                   updates0: seq<(string, Patch)>, stories0: map<string, Story>)
    reads db
  {
    && db.Valid()
    && db.updates == updates0 + Tagged(s.id, [StatusPatch(Extracting)] + Snapshots(fragments))
    && db.stories == stories0[s.id := Extracted(s, fragments)]
  }

  /** Appending one more fragment to a list that extends another. */
  lemma AppendSnoc(a: seq<Fragment>, b: seq<Fragment>, f: Fragment)
    ensures (a + b) + [f] == a + (b + [f])
  {
  }

  /** `fragments.push(f)` followed by the write of the list so far. */
  method Push(db: Database, story: Story, before: seq<Fragment>, f: Fragment,
              ghost updates0: seq<(string, Patch)>, ghost stories0: map<string, Story>)
      returns (fragments: seq<Fragment>)
    requires ExtractionLogged(db, story, before, updates0, stories0)
    modifies db
    ensures fragments == before + [f]
    ensures ExtractionLogged(db, story, fragments, updates0, stories0)
    ensures db.agents == old(db.agents) && db.agentOrder == old(db.agentOrder) && db.storyOrder == old(db.storyOrder)
  {
    fragments := before + [f];
    db.UpdateStory(story.id, FragmentsPatch(fragments));
    SnapshotsSnoc(before, f);
    var p := FragmentsPatch(fragments);
    var written := [StatusPatch(Extracting)] + Snapshots(before);
    PatchAssoc([StatusPatch(Extracting)], Snapshots(before), [p]);
    WriteStep(stories0, story.id, Extracted(story, before), p);
    TaggedAppend(story.id, written, [p]);
    assert Tagged(story.id, [p]) == [(story.id, p)];
    LogAssoc(updates0, Tagged(story.id, written), [(story.id, p)]);
  }

  /**
   * One extraction loop: for each canonical id of its kind (`ai` false: the
   * real ones, true: the others) with a stored agent and a prepared memory,
   * pushes that memory's fragment and writes the list so far.
   */
  method ExtractionPass(db: Database, story: Story, allAgents: seq<Agent>, realIds: seq<string>,
                        presets: string -> Option<Preset>, ai: bool, fragments0: seq<Fragment>,
                        ghost updates0: seq<(string, Patch)>, ghost stories0: map<string, Story>)
      returns (fragments: seq<Fragment>)
    requires ExtractionLogged(db, story, fragments0, updates0, stories0)
    modifies db
    ensures fragments == fragments0 + Pass(allAgents, CanonicalOrder, realIds, ai, presets)
    ensures ExtractionLogged(db, story, fragments, updates0, stories0)
    ensures db.agents == old(db.agents) && db.agentOrder == old(db.agentOrder) && db.storyOrder == old(db.storyOrder)
  {
    fragments := fragments0;
    for k := 0 to |CanonicalOrder|
      invariant fragments == fragments0 + Pass(allAgents, CanonicalOrder[..k], realIds, ai, presets)
      invariant ExtractionLogged(db, story, fragments, updates0, stories0)
      invariant db.agents == old(db.agents) && db.agentOrder == old(db.agentOrder) && db.storyOrder == old(db.storyOrder)
    {
      var agentId := CanonicalOrder[k];
      if (agentId in realIds) == ai {
        PassSkip(allAgents, CanonicalOrder, k, realIds, ai, presets);
        continue;
      }
      var agent := FindAgent(allAgents, agentId);
      var demo := presets(agentId);
      if agent.None? || demo.None? {
        PassSkip(allAgents, CanonicalOrder, k, realIds, ai, presets);
        continue;
      }
      ghost var done := Pass(allAgents, CanonicalOrder[..k], realIds, ai, presets);
      PassTake(allAgents, CanonicalOrder, k, realIds, ai, presets);
      var f := PresetFragment(agent.value, demo.value, ai);
      fragments := Push(db, story, fragments, f, updates0, stories0);
      AppendSnoc(fragments0, done, f);
    }
    assert CanonicalOrder[..|CanonicalOrder|] == CanonicalOrder;
  }

  /** Six updates in a row, one after the other. */
  lemma ApplyAllSix(t: Story, p0: Patch, p1: Patch, p2: Patch, p3: Patch, p4: Patch, p5: Patch)
    ensures ApplyAll(t, [p0, p1, p2, p3, p4, p5]) == Apply(Apply(Apply(Apply(Apply(Apply(t, p0), p1), p2), p3), p4), p5)
  {
    ApplyAllSnoc(t, [], p0);
    ApplyAllSnoc(t, [p0], p1);
    ApplyAllSnoc(t, [p0, p1], p2);
    ApplyAllSnoc(t, [p0, p1, p2], p3);
    ApplyAllSnoc(t, [p0, p1, p2, p3], p4);
    ApplyAllSnoc(t, [p0, p1, p2, p3, p4], p5);
    assert [] + [p0] == [p0];
    assert [p0] + [p1] == [p0, p1];
    assert [p0, p1] + [p2] == [p0, p1, p2];
    assert [p0, p1, p2] + [p3] == [p0, p1, p2, p3];
    assert [p0, p1, p2, p3] + [p4] == [p0, p1, p2, p3, p4];
    assert [p0, p1, p2, p3, p4] + [p5] == [p0, p1, p2, p3, p4, p5];
  }

  /** The closing writes complete the story with the woven fragments and the narrative, whatever state it was in. */
  lemma ClosingApplied(t: Story, negotiated: seq<Fragment>, woven: seq<Fragment>, narrative: string, completedAt: int)
    ensures ApplyAll(t, ClosingWrites(negotiated, woven, narrative, completedAt))
            == t.(status := Completed, fragments := woven, finalNarrative := Some(narrative), completedAt := Some(completedAt))
  {
    ApplyAllSix(t, StatusPatch(Negotiating), FragmentsPatch(negotiated), StatusPatch(Weaving), FragmentsPatch(woven),
                StatusPatch(Composing), Patch(Some(Completed), Some(woven), Some(narrative), Some(completedAt)));
  }

  /** A write to a story whose stored value is `cur` stores `Apply(cur, p)` in its place. */
  lemma WriteStep(m0: map<string, Story>, id: string, cur: Story, p: Patch)
    ensures var m := m0[id := cur];
            m[id := Apply(m[id], p)] == m0[id := Apply(cur, p)]
  {
  }

  /** Two appends to a list of updates in a row. */
  lemma PatchAssoc(a: seq<Patch>, b: seq<Patch>, c: seq<Patch>)
    ensures a + b + c == a + (b + c)
  {
  }

  /** Storing a story twice under the same id keeps only the second. */
  lemma OverwriteStory(m0: map<string, Story>, id: string, a: Story, b: Story)
    ensures m0[id := a][id := b] == m0[id := b]
  {
  }

  /** Appending to the log in two steps appends both parts. */
  lemma LogAssoc(u: seq<(string, Patch)>, a: seq<(string, Patch)>, b: seq<(string, Patch)>)
    ensures u + a + b == u + (a + b)
  {
  }

  /** The log entries of the six closing writes. */
  lemma TaggedClosing(id: string, ws: seq<Patch>, u: seq<(string, Patch)>)
    requires |ws| == 6
    ensures u + [(id, ws[0])] + [(id, ws[1])] + [(id, ws[2])] + [(id, ws[3])] + [(id, ws[4])] + [(id, ws[5])]
            == u + Tagged(id, ws)
  {
  }

  /**
   * The phases after extraction: negotiation sorts the table's proposals,
   * weaving puts in the prepared rewrites, composition renders the
   * narrative; each phase is announced by a status write and followed by a
   * write of what it produced, the last one completing the story.
   */
  method LaterPhases(db: Database, id: string, theme: string, fragments: seq<Fragment>,
                     presets: string -> Option<Preset>, completedAt: int)
    requires db.Valid() && id in db.stories
    modifies db
    ensures db.Valid()
    ensures db.agents == old(db.agents) && db.agentOrder == old(db.agentOrder) && db.storyOrder == old(db.storyOrder)
    ensures var negotiated := DemoNegotiation(fragments, presets);
            var woven := DemoWeaving(negotiated, presets);
            var ws := ClosingWrites(negotiated, woven, DemoNarrative(theme, woven), completedAt);
            && db.updates == old(db.updates) + Tagged(id, ws)
            && db.stories == old(db.stories)[id := ApplyAll(old(db.stories)[id], ws)]
  {
    ghost var m0, u0 := db.stories, db.updates;
    ghost var t := db.stories[id];
    assert m0 == m0[id := t];

    db.UpdateStory(id, StatusPatch(Negotiating));
    WriteStep(m0, id, t, StatusPatch(Negotiating));
    ghost var t1 := Apply(t, StatusPatch(Negotiating));
    var negotiated := NegotiatedAll(fragments, presets);
    negotiated := SortByKey(negotiated, Rank);
    db.UpdateStory(id, FragmentsPatch(negotiated));
    WriteStep(m0, id, t1, FragmentsPatch(negotiated));
    ghost var t2 := Apply(t1, FragmentsPatch(negotiated));

    db.UpdateStory(id, StatusPatch(Weaving));
    WriteStep(m0, id, t2, StatusPatch(Weaving));
    ghost var t3 := Apply(t2, StatusPatch(Weaving));
    var woven := DemoWeaving(negotiated, presets);
    db.UpdateStory(id, FragmentsPatch(woven));
    WriteStep(m0, id, t3, FragmentsPatch(woven));
    ghost var t4 := Apply(t3, FragmentsPatch(woven));

    db.UpdateStory(id, StatusPatch(Composing));
    WriteStep(m0, id, t4, StatusPatch(Composing));
    ghost var t5 := Apply(t4, StatusPatch(Composing));
    var realCount := RealCount(woven);
    var aiCount := AiCount(woven);
    var parts := DemoBlocks(woven);
    var finalNarrative := DemoHead(theme, |woven|, realCount, aiCount) + Join(parts, Divider) + DemoFoot(realCount, aiCount);
    var last := Patch(Some(Completed), Some(woven), Some(finalNarrative), Some(completedAt));
    db.UpdateStory(id, last);
    WriteStep(m0, id, t5, last);

    ghost var ws := ClosingWrites(negotiated, woven, finalNarrative, completedAt);
    ClosingApplied(t, negotiated, woven, finalNarrative, completedAt);
    TaggedClosing(id, ws, u0);
  }

  /**
   * The detached playback: the two extraction passes, announced by the
   * `extracting` write, then the later phases.
   */
  method PlayBack(db: Database, story: Story, allAgents: seq<Agent>, realIds: seq<string>,
                  presets: string -> Option<Preset>, completedAt: int)
    requires db.Valid() && story.id in db.stories && db.stories[story.id] == story
    modifies db
    ensures db.Valid()
    ensures db.agents == old(db.agents) && db.agentOrder == old(db.agentOrder) && db.storyOrder == old(db.storyOrder)
    ensures var ws := DemoWrites(story.theme, DemoExtraction(allAgents, realIds, presets), completedAt, presets);
            && db.updates == old(db.updates) + Tagged(story.id, ws)
            && db.stories == old(db.stories)[story.id := ApplyAll(story, ws)]
  {
    ghost var updates0, stories0 := db.updates, db.stories;
    db.UpdateStory(story.id, StatusPatch(Extracting));
    assert Tagged(story.id, [StatusPatch(Extracting)] + Snapshots([])) == [(story.id, StatusPatch(Extracting))];
    var fragments := ExtractionPass(db, story, allAgents, realIds, presets, false, [], updates0, stories0);
    fragments := ExtractionPass(db, story, allAgents, realIds, presets, true, fragments, updates0, stories0);
    assert fragments == DemoExtraction(allAgents, realIds, presets) by {
      assert [] + Pass(allAgents, CanonicalOrder, realIds, false, presets) == Pass(allAgents, CanonicalOrder, realIds, false, presets);
    }
    ghost var extraction := [StatusPatch(Extracting)] + Snapshots(fragments);
    ghost var m1, u1 := db.stories, db.updates;
    LaterPhases(db, story.id, story.theme, fragments, presets, completedAt);
    ghost var negotiated := DemoNegotiation(fragments, presets);
    ghost var woven := DemoWeaving(negotiated, presets);
    ghost var closing := ClosingWrites(negotiated, woven, DemoNarrative(story.theme, woven), completedAt);
    ghost var ws := DemoWrites(story.theme, fragments, completedAt, presets);
    assert ws == extraction + closing;
    TaggedAppend(story.id, extraction, closing);
    LogAssoc(updates0, Tagged(story.id, extraction), Tagged(story.id, closing));
    ExtractedState(story, fragments);
    ApplyAllAppend(story, extraction, closing);
    assert m1[story.id] == ApplyAll(story, extraction);
    assert db.stories == stories0[story.id := Extracted(story, fragments)][story.id := ApplyAll(story, ws)];
    OverwriteStory(stories0, story.id, Extracted(story, fragments), ApplyAll(story, ws));
  }

  /** Seeding stores every demo agent where `getAllAgents` finds it. */
  lemma SeededAllStored(agents: map<string, Agent>, order: seq<string>, before: map<string, Agent>, now: int)
    requires agents == UpsertAll(before, DemoRoster(now))
    requires IsOrderOf(order, agents.Keys)
    requires forall k :: k in agents ==> agents[k].id == k
    ensures AllStored(ValuesInOrder(order, agents))
  {
    var roster := DemoRoster(now);
    UpsertAllEffect(before, roster);
    var all := ValuesInOrder(order, agents);
    forall i | 0 <= i < |CanonicalOrder| ensures FindAgent(all, CanonicalOrder[i]).Some? {
      var id := CanonicalOrder[i];
      var a := roster[[4, 0, 1, 2, 3][i]];
      assert a in roster && a.id == id;
      assert id in agents;
      var j :| 0 <= j < |order| && order[j] == id;
      assert all[j].id == id;
    }
  }

  /**
   * `POST /api/demo`, given the table of prepared memories (the route's own
   * is `PresetFor`): answers 400 without a theme and changes nothing;
   * otherwise seeds the demo agents, creates the story (the stored agents
   * are its participants, the clamped count its real pieces) and plays it
   * back from the table to completion.
   */
  method DemoPost(db: Database, req: Request, clock: Clock, presets: string -> Option<Preset>) returns (resp: Response)
    requires db.Valid()
    modifies db
    ensures db.Valid()
    ensures req.theme.None? || req.theme.value == "" ==>
              && resp == BadRequest(400, NoTheme)
              && db.agents == old(db.agents) && db.agentOrder == old(db.agentOrder)
              && db.stories == old(db.stories) && db.storyOrder == old(db.storyOrder) && db.updates == old(db.updates)
    ensures req.theme.Some? && req.theme.value != "" ==>
              && db.agents == UpsertAll(old(db.agents), DemoRoster(clock.seedTime))
              && db.agentOrder == old(db.agentOrder) + NewIds(DemoRoster(clock.seedTime), old(db.agents).Keys)
              && var agents := ValuesInOrder(db.agentOrder, db.agents);
                 var s := DemoStory(req.theme.value, req, clock, agents);
                 var ws := DemoWrites(s.theme, DemoExtraction(agents, RealIds(s.realPieceCount), presets),
                                      clock.completedAt, presets);
                 && AllStored(agents)
                 && resp == Started(s.id)
                 && db.stories == old(db.stories)[s.id := ApplyAll(s, ws)]
                 && db.storyOrder == (if s.id in old(db.stories) then old(db.storyOrder) else old(db.storyOrder) + [s.id])
                 && db.updates == old(db.updates) + Tagged(s.id, ws)
  {
    if req.theme.None? || req.theme.value == "" {
      return BadRequest(400, NoTheme);
    }
    ghost var stories0 := db.stories;
    SeedDemoAgents(db, clock.seedTime);
    var allAgents := db.AllAgents();
    assert allAgents == ValuesInOrder(db.agentOrder, db.agents);
    SeededAllStored(db.agents, db.agentOrder, old(db.agents), clock.seedTime);
    var clampedCount := ClampedCount(req.realAgentCount.GetOr(2), |allAgents|);
    var realIds := RealIds(clampedCount);
    var story := DemoStory(req.theme.value, req, clock, allAgents);
    db.CreateStory(story);
    PlayBack(db, story, allAgents, realIds, presets, clock.completedAt);
    ghost var ws := DemoWrites(story.theme, DemoExtraction(allAgents, realIds, presets), clock.completedAt, presets);
    OverwriteStory(stories0, story.id, story, ApplyAll(story, ws));
    resp := Started(story.id);
  }
}
