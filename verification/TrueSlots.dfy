/** What slots hold, said of the tokens themselves: every slot that a page refers to holds what base storage loses of
  * that page's tokens, and the metadata beside it describes that block. */
module TrueSlots {

  import opened Numbers
  import opened Sums
  import opened Config
  import opened Pages
  import opened Selection
  import opened BaseRows
  import opened SlotArena
  import opened CacheState
  import opened PageTables
  import opened Router
  import opened StorePlan
  import opened StoreStep
  import opened Losses
  import opened SketchDots
  import opened LayerSteps
  import opened Prefill
  import opened Decode
  import opened LayerRuns

  function Side(kind: Kind, t: Token): Vec { if kind == KSlot then t.k else t.v }

  /** What quantizing and dequantizing a token loses on one group. */
  function TokenLost(cfg: CacheConfig, kind: Kind, g: nat, t: Token): (row: Vec)
    requires cfg.Valid() && TokenOk(cfg, t) && g < NumGroups(cfg, kind)
    ensures |row| == BlockWidth(cfg, kind)
  {
    Diff(Slice(cfg, kind, g, Side(kind, t)), Slice(cfg, kind, g, Hat(cfg, Side(kind, t))))
  }

  /** The rows of a block that lie among the first `n` tokens of page `p` are what was lost of those tokens. */
  ghost predicate BlockTrue(cfg: CacheConfig, kind: Kind, rows: seq<Vec>, p: nat, g: nat, n: nat, ts: seq<Token>)
    requires cfg.Valid() && TokensOk(cfg, ts) && g < NumGroups(cfg, kind)
  {
    forall i: nat :: i < |rows| && BlockStart(cfg, kind, g) + i < n ==>
      RowTrue(cfg, kind, rows[i], g, p * cfg.pageSize + BlockStart(cfg, kind, g) + i, ts)
  }

  /** A row of a block against token `t`. */
  ghost predicate RowTrue(cfg: CacheConfig, kind: Kind, row: Vec, g: nat, t: nat, ts: seq<Token>)
    requires cfg.Valid() && TokensOk(cfg, ts) && g < NumGroups(cfg, kind)
  {
    t < |ts| && row == TokenLost(cfg, kind, g, ts[t])
  }

  function RowNorms(ker: Kernels, rows: seq<Vec>, n: nat): real
    requires n <= |rows|
  {
    if n == 0 then 0.0 else RowNorms(ker, rows, n - 1) + ker.norm(rows[n - 1])
  }

  function Errs(meta: PageMeta, kind: Kind): Vec { if kind == KSlot then meta.kErr else meta.vErr }

  /** The means of a block's columns over its first `n` rows. */
  function ColumnMeans(rows: seq<Vec>, n: nat): int -> real { c => Mean(n, Column(rows, c)) }

  /** The recorded error of a group is the mean norm of its block's live rows, and the recorded sketch of a channel
    * group is the projection of their mean. */
  ghost predicate RecordTrue(m: Manager, kind: Kind, meta: PageMeta, rows: seq<Vec>, g: nat)
    requires m.en.Valid()
  {
    var n := Live(m.en.cfg, kind, g, meta.numTokens);
    && n <= |rows| && g < |Errs(meta, kind)| && Errs(meta, kind)[g] * n as real == RowNorms(m.en.ker, rows, n)
    && (kind == KSlot ==>
          g < |meta.kSketch| && |meta.kSketch[g]| == Width(m.en.ker.proj) && forall j :: 0 <= j < |meta.kSketch[g]| ==>
            meta.kSketch[g][j] == Projected(m.en.ker.proj, m.en.cfg.kChannelGroup, ColumnMeans(rows, n), j))
  }

  /** The slot of group `g` of page `p`, if it has one. */
  ghost predicate SlotTrue(m: Manager, kind: Kind, a: Arena, meta: PageMeta, p: nat, g: nat, ts: seq<Token>)
    requires m.en.Valid() && TokensOk(m.en.cfg, ts) && g < NumGroups(m.en.cfg, kind) && g < |Slots(meta, kind)|
  {
    var slot := Slots(meta, kind)[g];
    slot >= 0 ==>
      && slot in a.claims
      && BlockTrue(m.en.cfg, kind, a.claims[slot].rows, p, g, meta.numTokens, ts)
      && RecordTrue(m, kind, meta, a.claims[slot].rows, g)
  }

  ghost predicate PageTrue(m: Manager, kind: Kind, a: Arena, page: PageState, p: nat, ts: seq<Token>)
    requires m.en.Valid() && TokensOk(m.en.cfg, ts)
  {
    page.meta.Some? ==>
      forall g: nat :: g < NumGroups(m.en.cfg, kind) && g < |Slots(page.meta.value, kind)| ==>
        SlotTrue(m, kind, a, page.meta.value, p, g, ts)
  }

  /** Every slot of a head holds what was lost of the tokens in its place. */
  ghost predicate HeadTrue(m: Manager, k: Arena, v: Arena, hd: Head, ts: seq<Token>)
    requires m.en.Valid() && TokensOk(m.en.cfg, ts)
  {
    forall p :: 0 <= p < |hd.pages| ==>
      PageTrue(m, KSlot, k, hd.pages[p], p, ts) && PageTrue(m, VSlot, v, hd.pages[p], p, ts)
  }

  // ---- what leaves it so ----

  lemma BlockTrueMore(cfg: CacheConfig, kind: Kind, rows: seq<Vec>, p: nat, g: nat, n: nat, ts: seq<Token>,
                      more: seq<Token>)
    requires cfg.Valid() && TokensOk(cfg, ts) && TokensOk(cfg, more) && g < NumGroups(cfg, kind) && ts <= more
    requires BlockTrue(cfg, kind, rows, p, g, n, ts)
    ensures BlockTrue(cfg, kind, rows, p, g, n, more)
  {
    hide TokenLost, TokensOk, BlockStart, NumGroups;
  }

  lemma SlotTrueMore(m: Manager, kind: Kind, a: Arena, b: Arena, meta: PageMeta, p: nat, g: nat, ts: seq<Token>,
                     more: seq<Token>)
    requires m.en.Valid() && TokensOk(m.en.cfg, ts) && TokensOk(m.en.cfg, more) && ts <= more && Extends(a, b)
    requires g < NumGroups(m.en.cfg, kind) && g < |Slots(meta, kind)| && SlotTrue(m, kind, a, meta, p, g, ts)
    ensures SlotTrue(m, kind, b, meta, p, g, more)
  {
    hide BlockTrue, RecordTrue, TokensOk, NumGroups;
    var slot := Slots(meta, kind)[g];
    if slot >= 0 { BlockTrueMore(m.en.cfg, kind, a.claims[slot].rows, p, g, meta.numTokens, ts, more); }
  }

  /** The truth about a page survives growing arenas, more tokens, and changes to its base rows. */
  lemma PageTrueMore(m: Manager, kind: Kind, a: Arena, b: Arena, page: PageState, page': PageState, p: nat,
                     ts: seq<Token>, more: seq<Token>)
    requires m.en.Valid() && TokensOk(m.en.cfg, ts) && TokensOk(m.en.cfg, more) && ts <= more && Extends(a, b)
    requires PageTrue(m, kind, a, page, p, ts) && page'.meta == page.meta
    ensures PageTrue(m, kind, b, page', p, more)
  {
    hide SlotTrue, TokensOk, NumGroups, Extends;
    if page.meta.Some? {
      forall g: nat | g < NumGroups(m.en.cfg, kind) && g < |Slots(page.meta.value, kind)|
        ensures SlotTrue(m, kind, b, page.meta.value, p, g, more)
      {
        SlotTrueMore(m, kind, a, b, page.meta.value, p, g, ts, more);
      }
    }
  }

  predicate SameMetas(hd: Head, hd': Head)
  {
    |hd'.pages| == |hd.pages| && forall p :: 0 <= p < |hd.pages| ==> hd'.pages[p].meta == hd.pages[p].meta
  }

  lemma HeadTrueMore(m: Manager, st: State, st': State, hd: Head, hd': Head, ts: seq<Token>, more: seq<Token>)
    requires m.en.Valid() && TokensOk(m.en.cfg, ts) && TokensOk(m.en.cfg, more) && ts <= more && Grows(st, st')
    requires HeadTrue(m, st.k, st.v, hd, ts) && SameMetas(hd, hd')
    ensures HeadTrue(m, st'.k, st'.v, hd', more)
  {
    hide PageTrue, TokensOk, Extends;
    forall p | 0 <= p < |hd'.pages|
      ensures PageTrue(m, KSlot, st'.k, hd'.pages[p], p, more) && PageTrue(m, VSlot, st'.v, hd'.pages[p], p, more)
    {
      PageTrueMore(m, KSlot, st.k, st'.k, hd.pages[p], hd'.pages[p], p, ts, more);
      PageTrueMore(m, VSlot, st.v, st'.v, hd.pages[p], hd'.pages[p], p, ts, more);
    }
  }

  /** And when one page gets new metadata that is true of it. */
  lemma HeadTruePage(m: Manager, st: State, st': State, hd: Head, hd': Head, p: nat, ts: seq<Token>)
    requires m.en.Valid() && TokensOk(m.en.cfg, ts) && Grows(st, st') && HeadTrue(m, st.k, st.v, hd, ts)
    requires |hd'.pages| == |hd.pages| && p < |hd.pages|
    requires forall q :: 0 <= q < |hd.pages| && q != p ==> hd'.pages[q].meta == hd.pages[q].meta
    requires PageTrue(m, KSlot, st'.k, hd'.pages[p], p, ts) && PageTrue(m, VSlot, st'.v, hd'.pages[p], p, ts)
    ensures HeadTrue(m, st'.k, st'.v, hd', ts)
  {
    hide PageTrue, TokensOk, Extends;
    forall q | 0 <= q < |hd'.pages|
      ensures PageTrue(m, KSlot, st'.k, hd'.pages[q], q, ts) && PageTrue(m, VSlot, st'.v, hd'.pages[q], q, ts)
    {
      if q != p {
        PageTrueMore(m, KSlot, st.k, st'.k, hd.pages[q], hd'.pages[q], q, ts, ts);
        PageTrueMore(m, VSlot, st.v, st'.v, hd.pages[q], hd'.pages[q], q, ts, ts);
      }
    }
  }

  // ---- a prompt page ----

  lemma {:induction false} NormsOfBlock(m: Manager, kind: Kind, x: PageInput, g: nat, n: nat)
    requires m.en.Valid() && InputOk(m.en.cfg, x) && g < NumGroups(m.en.cfg, kind)
    requires n <= Live(m.en.cfg, kind, g, x.valid)
    ensures var rows := BlockOf(m.en.cfg, kind, ResidualOf(m.en.cfg, kind, x), g);
      n <= |rows| && RowNorms(m.en.ker, rows, n) == LostNorms(m.en.ker, m.en.cfg, kind, g, x, n)
  {
    hide BlockOf, ResidualOf, Lost, Live, NumGroups;
    if n == 0 {
    } else {
      NormsOfBlock(m, kind, x, g, n - 1);
      BlockIsLost(m.en.cfg, kind, g, x, n - 1);
    }
  }

  lemma MeansOfBlock(m: Manager, x: PageInput, g: nat, c: nat)
    requires m.en.Valid() && InputOk(m.en.cfg, x) && g < m.en.cfg.NumCg() && c < m.en.cfg.kChannelGroup
    ensures var rows := BlockOf(m.en.cfg, KSlot, ResidualOf(m.en.cfg, KSlot, x), g);
      ColumnMeans(rows, x.valid)(c) == MeanLost(m.en.cfg, x, g)(c)
  {
    hide BlockOf, ResidualOf, CacheConfig.NumCg, Mean, At2;
    var rows := BlockOf(m.en.cfg, KSlot, ResidualOf(m.en.cfg, KSlot, x), g);
    forall t | 0 <= t < x.valid ensures Column(rows, c)(t) == LostAt(m.en.cfg, x, g, c)(t) {
      BlockChannel(m.en.cfg, x, g, t, c);
    }
    MeanExt(x.valid, Column(rows, c), LostAt(m.en.cfg, x, g, c));
  }

  /** Metadata made of a page describes the blocks of that page. */
  lemma RecordMade(m: Manager, kind: Kind, x: PageInput, h: nat, p: nat, kSlots: seq<int>, vSlots: seq<int>, g: nat)
    requires m.en.Valid() && InputOk(m.en.cfg, x) && g < NumGroups(m.en.cfg, kind)
    ensures RecordTrue(m, kind, MetaOf(m, x, h, p, kSlots, vSlots),
                       BlockOf(m.en.cfg, kind, ResidualOf(m.en.cfg, kind, x), g), g)
  {
    hide BlockOf, ResidualOf, Live, GroupError, LostNorms, RowNorms, CacheConfig.NumCg, CacheConfig.NumVb, Projected,
      Sketch, Selected, ColumnMeans;
    var cfg, meta := m.en.cfg, MetaOf(m, x, h, p, kSlots, vSlots);
    var rows, n := BlockOf(cfg, kind, ResidualOf(cfg, kind, x), g), Live(cfg, kind, g, x.valid);
    ErrorIsLost(m, kind, x, g);
    NormsOfBlock(m, kind, x, g, n);
    if kind == KSlot {
      assert n == x.valid by { LiveKeys(cfg, g, x.valid); }
      SketchWidth(m, x, g);
      forall j | 0 <= j < |meta.kSketch[g]|
        ensures meta.kSketch[g][j] == Projected(m.en.ker.proj, cfg.kChannelGroup, ColumnMeans(rows, n), j)
      {
        SketchIsProjected(m, x, g, j);
        SameProjected(m, x, g, j);
      }
    }
  }

  lemma LiveKeys(cfg: CacheConfig, g: nat, n: nat)
    ensures Live(cfg, KSlot, g, n) == n
  {
  }

  lemma SameProjected(m: Manager, x: PageInput, g: nat, j: nat)
    requires m.en.Valid() && InputOk(m.en.cfg, x) && g < m.en.cfg.NumCg()
    ensures var rows := BlockOf(m.en.cfg, KSlot, ResidualOf(m.en.cfg, KSlot, x), g);
      Projected(m.en.ker.proj, m.en.cfg.kChannelGroup, ColumnMeans(rows, x.valid), j)
        == Projected(m.en.ker.proj, m.en.cfg.kChannelGroup, MeanLost(m.en.cfg, x, g), j)
  {
    hide BlockOf, ResidualOf, CacheConfig.NumCg, ColumnMeans, MeanLost, At2;
    var rows, w := BlockOf(m.en.cfg, KSlot, ResidualOf(m.en.cfg, KSlot, x), g), m.en.cfg.kChannelGroup;
    var a, b := ColumnMeans(rows, x.valid), MeanLost(m.en.cfg, x, g);
    forall c | 0 <= c < w ensures ProjectedTerm(m.en.ker.proj, a, j)(c) == ProjectedTerm(m.en.ker.proj, b, j)(c) {
      MeansOfBlock(m, x, g, c);
    }
    SumExt(0, w, ProjectedTerm(m.en.ker.proj, a, j), ProjectedTerm(m.en.ker.proj, b, j));
  }

  /** A block of a prompt page is what was lost of the prompt's tokens there. */
  lemma PromptBlock(cfg: CacheConfig, kind: Kind, ts: seq<Token>, at: Prompt, p: nat, g: nat)
    requires cfg.Valid() && TokensOk(cfg, ts) && p * cfg.pageSize < |ts| && g < NumGroups(cfg, kind)
    ensures var x := PromptInput(cfg, ts, at, p);
      BlockTrue(cfg, kind, BlockOf(cfg, kind, ResidualOf(cfg, kind, x), g), p, g, x.valid, ts)
  {
    hide BlockOf, ResidualOf, NumGroups, PromptInput, TokensOk, BlockStart, RowTrue;
    var x := PromptInput(cfg, ts, at, p);
    var rows := BlockOf(cfg, kind, ResidualOf(cfg, kind, x), g);
    forall i: nat | i < |rows| && BlockStart(cfg, kind, g) + i < x.valid
      ensures RowTrue(cfg, kind, rows[i], g, p * cfg.pageSize + BlockStart(cfg, kind, g) + i, ts)
    {
      PromptBlockRow(cfg, kind, ts, at, p, g, i, p * cfg.pageSize);
    }
  }

  lemma LiveRow(cfg: CacheConfig, kind: Kind, g: nat, n: nat, i: nat)
    requires i < BlockRows(cfg, kind) && BlockStart(cfg, kind, g) + i < n
    ensures i < Live(cfg, kind, g, n)
  {
  }

  lemma PromptBlockRow(cfg: CacheConfig, kind: Kind, ts: seq<Token>, at: Prompt, p: nat, g: nat, i: nat, first: nat)
    requires cfg.Valid() && TokensOk(cfg, ts) && first == p * cfg.pageSize < |ts| && g < NumGroups(cfg, kind)
    requires i < BlockRows(cfg, kind) && BlockStart(cfg, kind, g) + i < PromptInput(cfg, ts, at, p).valid
    ensures var x := PromptInput(cfg, ts, at, p);
      var row := BlockOf(cfg, kind, ResidualOf(cfg, kind, x), g)[i];
      RowTrue(cfg, kind, row, g, first + BlockStart(cfg, kind, g) + i, ts)
  {
    hide BlockOf, ResidualOf, NumGroups, PromptInput, TokensOk, BlockStart, Live, Slice, PageValid, Hat;
    var x := PromptInput(cfg, ts, at, p);
    PromptValid(cfg, ts, at, p);
    LiveRow(cfg, kind, g, x.valid, i);
    BlockIsLost(cfg, kind, g, x, i);
    PromptRow(cfg, kind, ts, at, p, BlockStart(cfg, kind, g) + i);
  }

  lemma PromptValid(cfg: CacheConfig, ts: seq<Token>, at: Prompt, p: nat)
    requires cfg.Valid() && TokensOk(cfg, ts) && p * cfg.pageSize < |ts|
    ensures PromptInput(cfg, ts, at, p).valid == PageValid(cfg, |ts|, p)
  {
    hide Hat, PagesFor, PageTokens, PageValid;
  }

  /** A prompt page counts as recent when no token lies more than three pages beyond it, and as a sink when it starts
    * among the sink tokens. */
  lemma PromptPlace(cfg: CacheConfig, ts: seq<Token>, at: Prompt, p: nat)
    requires cfg.Valid() && TokensOk(cfg, ts) && p * cfg.pageSize < |ts|
    ensures var x := PromptInput(cfg, ts, at, p);
      && (x.recent <==> |ts| <= (p + 4) * cfg.pageSize) && (x.sink <==> at.start + p * cfg.pageSize < at.sink)
  {
    hide Hat, PageTokens, PageValid, TokensOk;
    PagesReach(cfg, |ts|, p + 4);
  }

  lemma PagesReach(cfg: CacheConfig, n: nat, q: nat)
    requires cfg.Valid()
    ensures PagesFor(cfg, n) <= q <==> n <= q * cfg.pageSize
  {
    var k := PagesFor(cfg, n);
    UptoLast(cfg, n);
    if k <= q { MulUpTo(k, q, cfg.pageSize); }
    if q < k { PageNotEmpty(cfg, n, q); }
  }

  lemma MulUpTo(a: nat, b: nat, c: nat)
    requires a <= b
    ensures a * c <= b * c
  {
  }

  /** The rows that a prompt page is processed with are its tokens', original and dequantized. */
  lemma PromptRow(cfg: CacheConfig, kind: Kind, ts: seq<Token>, at: Prompt, p: nat, i: nat)
    requires cfg.Valid() && TokensOk(cfg, ts) && p * cfg.pageSize < |ts| && i < PageValid(cfg, |ts|, p)
    ensures var x, t := PromptInput(cfg, ts, at, p), p * cfg.pageSize + i;
      && x.valid == PageValid(cfg, |ts|, p) && t < |ts|
      && Orig(kind, x)[i] == Side(kind, ts[t]) && HatOf(kind, x)[i] == Hat(cfg, Side(kind, ts[t]))
  {
    hide Hat, PagesFor;
    assert PageTokens(cfg, ts, p)[i] == ts[p * cfg.pageSize + i];
  }

  /** Processing a prompt page leaves metadata and slots that are true of the prompt. */
  lemma ProcessedTrue(m: Manager, kind: Kind, st: State, h: nat, ts: seq<Token>, at: Prompt, p: nat)
    requires Target(m, st, h, p) && TokensOk(m.en.cfg, ts) && p * m.en.cfg.pageSize < |ts|
    requires Process(m, st, h, p, PromptInput(m.en.cfg, ts, at, p)).Some?
    ensures var st' := Process(m, st, h, p, PromptInput(m.en.cfg, ts, at, p)).value;
      PageTrue(m, kind, ArenaOf(st', kind), st'.heads[m.en.layer][h].pages[p], p, ts)
  {
    hide Inv, PromptInput, TokensOk, SlotTrue, NumGroups, SlotList, Taken, MetaOf;
    var x := PromptInput(m.en.cfg, ts, at, p);
    var st' := Process(m, st, h, p, x).value;
    var meta := NewMeta(m, st, h, p, x);
    assert st'.heads[m.en.layer][h].pages[p].meta == Some(meta);
    forall g: nat | g < NumGroups(m.en.cfg, kind) && g < |Slots(meta, kind)|
      ensures SlotTrue(m, kind, ArenaOf(st', kind), meta, p, g, ts)
    {
      ProcessedSlot(m, kind, st, h, ts, at, p, g);
    }
  }

  lemma ProcessedSlot(m: Manager, kind: Kind, st: State, h: nat, ts: seq<Token>, at: Prompt, p: nat, g: nat)
    requires Target(m, st, h, p) && TokensOk(m.en.cfg, ts) && p * m.en.cfg.pageSize < |ts|
    requires Process(m, st, h, p, PromptInput(m.en.cfg, ts, at, p)).Some? && g < NumGroups(m.en.cfg, kind)
    ensures var x := PromptInput(m.en.cfg, ts, at, p);
      var meta := NewMeta(m, st, h, p, x);
      g < |Slots(meta, kind)| && SlotTrue(m, kind, ArenaOf(Process(m, st, h, p, x).value, kind), meta, p, g, ts)
  {
    hide Inv, PromptInput, TokensOk, NumGroups, SlotList, Taken, Errors, Sketches, Selected, SelectedOf, BlockTrue,
      RecordTrue, BlockOf, ResidualOf, ArenaOk;
    var x := PromptInput(m.en.cfg, ts, at, p);
    var a := ArenaOf(st, kind);
    ArenasOk(m.en.cfg, st);
    if SlotList(m, kind, a, p, x)[g] >= 0 {
      SlotsClaimed(m, kind, a, h, p, x, g);
      PromptBlock(m.en.cfg, kind, ts, at, p, g);
      RecordMade(m, kind, x, h, p, SlotList(m, KSlot, st.k, p, x), SlotList(m, VSlot, st.v, p, x), g);
    }
  }

  /** One more prompt page. */
  lemma WroteTrue(m: Manager, st: State, h: nat, ts: seq<Token>, at: Prompt, p: nat)
    requires Ready(m, st, h) && TokensOk(m.en.cfg, ts) && p * m.en.cfg.pageSize < |ts| && HeadAt(m, st, h).next == p
    requires WriteOne(m, st, h, ts, at, p).Some? && HeadTrue(m, st.k, st.v, HeadAt(m, st, h), ts)
    ensures var st' := WriteOne(m, st, h, ts, at, p).value;
      Ready(m, st', h) && HeadTrue(m, st'.k, st'.v, HeadAt(m, st', h), ts)
  {
    hide Inv, SelectedOf, Log, HeadOk, EncodeRow, PageTokens, Process, Extends, PageValid, OnlyHead, PageTrue, HeadTrue,
      TokensOk;
    var cfg, hd := m.en.cfg, HeadAt(m, st, h);
    BasedKeeps(m, st, h, ts, p);
    BasedFrame(m, st, h, ts, p);
    var based := Based(m, st, h, ts, p).value;
    var x := PromptInput(cfg, ts, at, p);
    Processed(m, based, h, p, x);
    var st' := WriteOne(m, st, h, ts, at, p).value;
    var mid, hd' := HeadAt(m, based, h), HeadAt(m, st', h);
    ProcessedTrue(m, KSlot, based, h, ts, at, p);
    ProcessedTrue(m, VSlot, based, h, ts, at, p);
    BasedMetas(m, st, h, ts, p);
    GrowsTrans(st, based, st');
    HeadTruePage(m, st, st', hd, hd', p, ts);
  }

  lemma BasedMetas(m: Manager, st: State, h: nat, ts: seq<Token>, p: nat)
    requires Ready(m, st, h) && TokensOk(m.en.cfg, ts) && p * m.en.cfg.pageSize < |ts|
    requires Based(m, st, h, ts, p).Some? && Ready(m, Based(m, st, h, ts, p).value, h)
    ensures SameMetas(HeadAt(m, st, h), HeadAt(m, Based(m, st, h, ts, p).value, h))
  {
    hide Inv, PageOk, EncodeAll, PageTokens, PageValid, TokensOk;
    OneHead(m.en.cfg, st, m.en.layer, h);
  }

  /** The page loop on an empty head. */
  lemma {:induction false} PagesTrue(m: Manager, st: State, h: nat, ts: seq<Token>, at: Prompt, p: nat)
    requires Ready(m, st, h) && TokensOk(m.en.cfg, ts) && p <= PagesFor(m.en.cfg, |ts|) && HeadAt(m, st, h).next == 0
    requires WritePages(m, st, h, ts, at, p).Some?
    ensures var st' := WritePages(m, st, h, ts, at, p).value;
      Ready(m, st', h) && HeadTrue(m, st'.k, st'.v, HeadAt(m, st', h), ts)
  {
    hide Inv, HeadAt, WritePages, WriteOne, PagesFor, TokensOk, EncodeAll, Log, OnlyHead, Grows, HeadTrue;
    if p == 0 {
      NoPages(m, st, h, ts, at);
      EmptyTrue(m, st, HeadAt(m, st, h), ts);
    } else {
      NextPage(m, st, h, ts, at, p);
      PagesTrue(m, st, h, ts, at, p - 1);
      WrotePages(m, st, h, ts, at, p - 1);
      PageNotEmpty(m.en.cfg, |ts|, p - 1);
      WroteTrue(m, WritePages(m, st, h, ts, at, p - 1).value, h, ts, at, p - 1);
    }
  }

  lemma EmptyTrue(m: Manager, st: State, hd: Head, ts: seq<Token>)
    requires m.en.Valid() && HeadOk(m.en.cfg, hd) && hd.next == 0 && TokensOk(m.en.cfg, ts)
    ensures HeadTrue(m, st.k, st.v, hd, ts)
  {
    hide PageOk, TokensOk;
  }

  // ---- a layer ----

  /** The same for every head of a layer. */
  ghost predicate LayerTrue(m: Manager, st: State, kv: seq<seq<Token>>, n: nat)
  {
    m.en.Valid() && n <= |kv| && forall h :: 0 <= h < n ==>
      Ready(m, st, h) && TokensOk(m.en.cfg, kv[h]) && HeadTrue(m, st.k, st.v, HeadAt(m, st, h), kv[h])
  }

  /** A step on one head leaves the slots of the others true. */
  lemma OthersTrue(m: Manager, st: State, st': State, h: nat, j: nat, ts: seq<Token>)
    requires Ready(m, st, h) && Ready(m, st', h) && Ready(m, st, j) && Ready(m, st', j) && j != h
    requires Grows(st, st') && OnlyHead(st, st', m.en.layer, h) && TokensOk(m.en.cfg, ts)
    requires HeadTrue(m, st.k, st.v, HeadAt(m, st, j), ts)
    ensures HeadTrue(m, st'.k, st'.v, HeadAt(m, st', j), ts)
  {
    hide Inv, HeadTrue, Grows, HeadOk, TokensOk;
    OneHead(m.en.cfg, st, m.en.layer, j);
    OneHead(m.en.cfg, st', m.en.layer, j);
    HeadTrueMore(m, st, st', HeadAt(m, st, j), HeadAt(m, st', j), ts, ts);
  }

  lemma {:induction false} HeadsTrue(m: Manager, st: State, kv: seq<seq<Token>>, at: Prompt, n: nat, h: nat)
    requires m.en.Valid() && Inv(m.en.cfg, st) && PromptOk(m.en.cfg, kv, n) && h <= m.en.cfg.numKvHeads
    requires forall j :: 0 <= j < m.en.cfg.numKvHeads ==> Ready(m, st, j) && HeadAt(m, st, j).next == 0
    requires Iterate(PrefillStep(m, kv, at), st, h).Some?
    ensures LayerTrue(m, Iterate(PrefillStep(m, kv, at), st, h).value, kv, h)
  {
    hide Inv, HeadAt, WritePages, PagesFor, TokensOk, HeadsDone, LoopBody, HeadTrue, Grows, OnlyHead, Log, EncodeAll;
    if h == 0 {
    } else {
      HeadsTrue(m, st, kv, at, n, h - 1);
      PrefillBody(m, kv, at, n);
      LoopDone(m, PrefillStep(m, kv, at), PromptedRel(m, kv, at), st, h - 1);
      var mid := Iterate(PrefillStep(m, kv, at), st, h - 1).value;
      var st' := Iterate(PrefillStep(m, kv, at), st, h).value;
      Untouched(m, st, mid, h - 1, PromptedRel(m, kv, at));
      PromptedHead(m, mid, h - 1, kv, at);
      PagesTrue(m, mid, h - 1, kv[h - 1], at, PagesFor(m.en.cfg, n));
      forall j | 0 <= j < h - 1 ensures Ready(m, st', j) && HeadTrue(m, st'.k, st'.v, HeadAt(m, st', j), kv[j]) {
        OthersTrue(m, mid, st', h - 1, j, kv[j]);
      }
    }
  }

  /** A prompt on an empty layer: every slot it fills holds what was lost of the prompt's own tokens. */
  lemma PrefillTrue(m: Manager, st: State, kv: seq<seq<Token>>, at: Prompt, n: nat)
    requires m.en.Valid() && Inv(m.en.cfg, st) && PromptOk(m.en.cfg, kv, n) && PrefillLayer(m, st, kv, at).Some?
    requires forall j :: 0 <= j < m.en.cfg.numKvHeads ==> Ready(m, st, j) && HeadAt(m, st, j).next == 0
    ensures LayerTrue(m, PrefillLayer(m, st, kv, at).value, kv, m.en.cfg.numKvHeads)
  {
    hide Inv, HeadAt, PrefillStep, LayerTrue, PromptOk;
    HeadsTrue(m, st, kv, at, n, m.en.cfg.numKvHeads);
  }

  // ---- decoding ----

  lemma OpenedMetas(cfg: CacheConfig, hd: Head)
    requires HeadOk(cfg, hd) && Opened(cfg, hd).Some?
    ensures SameMetas(hd, Opened(cfg, hd).value)
  {
    hide PageOk;
  }

  lemma AppendedMetas(m: Manager, st: State, h: nat, t: Token)
    requires Ready(m, st, h) && TokenOk(m.en.cfg, t) && Appended(m, st, h, t).Some?
    ensures SameMetas(HeadAt(m, st, h), Appended(m, st, h, t).value)
  {
    hide Inv, HeadOk, HeadRefs, EncodeRow, Opened;
    OneHead(m.en.cfg, st, m.en.layer, h);
    OpenedMetas(m.en.cfg, HeadAt(m, st, h));
    OpenedIsOpen(m.en.cfg, st.k, st.v, HeadAt(m, st, h), m.en.layer, h);
    var more := Opened(m.en.cfg, HeadAt(m, st, h)).value;
    HeadFilled(m.en.cfg, more);
    AppendMetas(more, more.next - 1, EncodeRow(m.en.cfg, t));
  }

  lemma AppendMetas(hd: Head, p: nat, row: StoredRow)
    requires p < |hd.pages| && hd.pages[p].valid < |hd.pages[p].rows|
    ensures SameMetas(hd, AppendRow(hd, p, row))
  {
  }

  lemma NoSlotsTrue(m: Manager, kind: Kind, a: Arena, page: PageState, p: nat, ts: seq<Token>)
    requires m.en.Valid() && TokensOk(m.en.cfg, ts)
    requires page.meta.Some?
    requires forall g :: 0 <= g < |Slots(page.meta.value, kind)| ==> Slots(page.meta.value, kind)[g] == -1
    ensures PageTrue(m, kind, a, page, p, ts)
  {
    hide TokensOk, NumGroups;
  }

  /** A page that decode processes again refers to no slot, so there is nothing to be false of it. */
  lemma RefilledTrue(m: Manager, st: State, h: nat, p: nat, x: PageInput, ts: seq<Token>)
    requires Ready(m, st, h) && Target(m, st, h, p) && InputOk(m.en.cfg, x) && NormOk(m.en.ker)
    requires x.kOrig == x.kHat && x.vOrig == x.vHat && x.valid <= HeadAt(m, st, h).pages[p].valid
    requires TokensOk(m.en.cfg, ts) && HeadTrue(m, st.k, st.v, HeadAt(m, st, h), ts)
    ensures Process(m, st, h, p, x).Some?
    ensures var st' := Process(m, st, h, p, x).value;
      Ready(m, st', h) && HeadTrue(m, st'.k, st'.v, HeadAt(m, st', h), ts)
  {
    hide Inv, NormOk, Process, HeadOk, Log, PageTrue, HeadTrue, TokensOk, Extends, OnlyHead, SelectedOf;
    ReprocessTakesNothing(m, st, h, p, x);
    Processed(m, st, h, p, x);
    var st' := Process(m, st, h, p, x).value;
    var hd, hd' := HeadAt(m, st, h), HeadAt(m, st', h);
    NoSlotsTrue(m, KSlot, st'.k, hd'.pages[p], p, ts);
    NoSlotsTrue(m, VSlot, st'.v, hd'.pages[p], p, ts);
    HeadTruePage(m, st, st', hd, hd', p, ts);
  }

  /** One decoded token on one head. */
  lemma DecodedTrue(m: Manager, st: State, h: nat, t: Token, pos: nat, ts: seq<Token>)
    requires Ready(m, st, h) && TokenOk(m.en.cfg, t) && NormOk(m.en.ker) && TokensOk(m.en.cfg, ts)
    requires DecodeHead(m, st, h, t, pos).Some? && HeadTrue(m, st.k, st.v, HeadAt(m, st, h), ts)
    ensures TokensOk(m.en.cfg, ts + [t])
    ensures var st' := DecodeHead(m, st, h, t, pos).value;
      Ready(m, st', h) && HeadTrue(m, st'.k, st'.v, HeadAt(m, st', h), ts + [t])
  {
    hide Inv, HeadOk, Log, NormOk, Process, RefillInput, Opened, AppendRow, EncodeRow, OnlyHead, Extends, WithHead,
      PageOk, HeadTrue, TokenOk;
    AppendedKeeps(m, st, h, t);
    AppendedMetas(m, st, h, t);
    var more := ts + [t];
    var hd := Appended(m, st, h, t).value;
    var mid, p := WithHead(m, st, h, hd), hd.next - 1;
    HeadTrueMore(m, st, mid, HeadAt(m, st, h), hd, ts, more);
    if hd.pages[p].valid == m.en.cfg.pageSize {
      RefillValid(m.en.cfg, hd.pages[p], pos);
      RefilledTrue(m, mid, h, p, RefillInput(m.en.cfg, hd.pages[p], pos), more);
    }
  }

  lemma {:induction false} DecodesTrue(m: Manager, st: State, kv: seq<seq<Token>>, ts: seq<Token>, pos: nat, h: nat)
    requires m.en.Valid() && Inv(m.en.cfg, st) && NormOk(m.en.ker) && h <= m.en.cfg.numKvHeads == |kv| == |ts|
    requires LayerTrue(m, st, kv, m.en.cfg.numKvHeads) && Iterate(DecodeStepOf(m, ts, pos), st, h).Some?
    ensures LayerTrue(m, Iterate(DecodeStepOf(m, ts, pos), st, h).value, Extended(kv, ts), h)
  {
    hide Inv, HeadAt, DecodeHead, TokensOk, TokenOk, HeadsDone, LoopBody, HeadTrue, Grows, OnlyHead, Log, NormOk;
    if h == 0 {
    } else {
      DecodesTrue(m, st, kv, ts, pos, h - 1);
      DecodeBody(m, ts, pos);
      LoopDone(m, DecodeStepOf(m, ts, pos), GrownRel(m, ts, pos), st, h - 1);
      var mid := Iterate(DecodeStepOf(m, ts, pos), st, h - 1).value;
      var st' := Iterate(DecodeStepOf(m, ts, pos), st, h).value;
      Untouched(m, st, mid, h - 1, GrownRel(m, ts, pos));
      StillTrue(m, st, mid, h - 1, GrownRel(m, ts, pos), kv[h - 1]);
      GrownHead(m, mid, h - 1, ts, pos);
      DecodedTrue(m, mid, h - 1, ts[h - 1], pos, kv[h - 1]);
      forall j | 0 <= j < h - 1
        ensures Ready(m, st', j) && HeadTrue(m, st'.k, st'.v, HeadAt(m, st', j), Extended(kv, ts)[j])
      {
        OthersTrue(m, mid, st', h - 1, j, Extended(kv, ts)[j]);
      }
    }
  }

  /** A layer's log with one token more on every head. */
  function Extended(kv: seq<seq<Token>>, ts: seq<Token>): (r: seq<seq<Token>>)
    requires |kv| == |ts|
    ensures |r| == |kv|
  {
    seq(|kv|, h requires 0 <= h < |kv| => kv[h] + [ts[h]])
  }

  /** A head the loop has not reached yet. */
  lemma StillTrue(m: Manager, st: State, mid: State, h: nat, rel: (nat, Head, Head) -> bool, ts: seq<Token>)
    requires HeadsDone(m, st, mid, h, rel) && h < m.en.cfg.numKvHeads && Ready(m, st, h) && Ready(m, mid, h)
    requires TokensOk(m.en.cfg, ts) && HeadTrue(m, st.k, st.v, HeadAt(m, st, h), ts)
    ensures HeadTrue(m, mid.k, mid.v, HeadAt(m, mid, h), ts)
  {
    hide Inv, HeadOk, HeadTrue, TokensOk, Extends;
    HeadTrueMore(m, st, mid, HeadAt(m, st, h), HeadAt(m, mid, h), ts, ts);
  }

  /** A decoded token on every head: slots stay true of the longer log. */
  lemma DecodeTrue(m: Manager, st: State, kv: seq<seq<Token>>, ts: seq<Token>)
    requires m.en.Valid() && Inv(m.en.cfg, st) && NormOk(m.en.ker) && m.en.cfg.numKvHeads == |kv| == |ts|
    requires LayerTrue(m, st, kv, m.en.cfg.numKvHeads) && DecodeLayer(m, st, ts).Some?
    ensures LayerTrue(m, DecodeLayer(m, st, ts).value, Extended(kv, ts), m.en.cfg.numKvHeads)
  {
    hide Inv, HeadAt, Log, DecodeStepOf, LayerTrue, NormOk;
    DecodesTrue(m, st, kv, ts, |Log(m.en.cfg, HeadAt(m, st, 0))|, m.en.cfg.numKvHeads);
  }

  /** Steps on other layers change nothing of it. */
  lemma LayerTrueFramed(m: Manager, st: State, st': State, kv: seq<seq<Token>>, n: nat)
    requires LayerTrue(m, st, kv, n) && n <= m.en.cfg.numKvHeads && Inv(m.en.cfg, st') && Grows(st, st')
    requires m.en.layer < |st.heads| == |st'.heads| && st'.heads[m.en.layer] == st.heads[m.en.layer]
    ensures LayerTrue(m, st', kv, n)
  {
    hide Inv, HeadOk, HeadTrue, TokensOk, Grows;
    forall h | 0 <= h < n ensures Ready(m, st', h) && HeadTrue(m, st'.k, st'.v, HeadAt(m, st', h), kv[h]) {
      assert Ready(m, st, h);
      OneHead(m.en.cfg, st, m.en.layer, h);
      OneHead(m.en.cfg, st', m.en.layer, h);
      HeadTrueMore(m, st, st', HeadAt(m, st, h), HeadAt(m, st', h), kv[h], kv[h]);
    }
  }
}
