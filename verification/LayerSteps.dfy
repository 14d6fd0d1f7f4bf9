/** One layer's writes to the cache: a prompt written page by page, then tokens appended one at a time. */
module LayerSteps {

  import opened Numbers
  import opened Config
  import opened Pages
  import opened Selection
  import opened BaseRows
  import opened SlotArena
  import opened CacheState
  import opened PageTables
  import opened StorePlan
  import opened StoreStep

  /** A prompt, with its absolute position and the number of leading sink tokens. */
  datatype Prompt = Prompt(start: nat, sink: int)

  function EncodeAll(cfg: CacheConfig, ts: seq<Token>): (r: seq<StoredRow>)
    requires cfg.Valid() && TokensOk(cfg, ts)
    ensures |r| == |ts|
  {
    seq(|ts|, i requires 0 <= i < |ts| => EncodeRow(cfg, ts[i]))
  }

  /** Pages a prompt of `n` tokens takes. */
  function PagesFor(cfg: CacheConfig, n: nat): nat
    requires cfg.Valid()
  {
    (n + cfg.pageSize - 1) / cfg.pageSize
  }

  /** Tokens in the first `p` pages of a prompt of `n` tokens. */
  function Upto(cfg: CacheConfig, n: nat, p: nat): nat { Min(p * cfg.pageSize, n) }

  lemma UptoLast(cfg: CacheConfig, n: nat)
    requires cfg.Valid()
    ensures Upto(cfg, n, PagesFor(cfg, n)) == n
  {
    var s, k := cfg.pageSize, PagesFor(cfg, n);
    assert n + s - 1 == k * s + (n + s - 1) % s;
  }

  lemma PageNotEmpty(cfg: CacheConfig, n: nat, p: nat)
    requires cfg.Valid() && p < PagesFor(cfg, n)
    ensures p * cfg.pageSize < n
  {
    var s, k := cfg.pageSize, PagesFor(cfg, n);
    assert n + s - 1 == k * s + (n + s - 1) % s;
    BlocksApart(p, k, s);
  }

  // ---- one prompt page ----

  /** Token `i` of prompt page `p`; zeros past the end of the prompt. */
  function PadToken(cfg: CacheConfig, ts: seq<Token>, p: nat, i: nat): (r: Token)
    requires TokensOk(cfg, ts)
    ensures TokenOk(cfg, r)
  {
    var t := p * cfg.pageSize + i;
    if t < |ts| then ts[t] else Token(ZeroRow(cfg.headDim), ZeroRow(cfg.headDim))
  }

  /** The tokens of prompt page `p`, padded with zeros to a whole page. */
  function PageTokens(cfg: CacheConfig, ts: seq<Token>, p: nat): (r: seq<Token>)
    requires TokensOk(cfg, ts)
    ensures |r| == cfg.pageSize && TokensOk(cfg, r)
  {
    seq(cfg.pageSize, i requires 0 <= i < cfg.pageSize => PadToken(cfg, ts, p, i))
  }

  function PageValid(cfg: CacheConfig, n: nat, p: nat): nat
    requires p * cfg.pageSize < n
  {
    Min(p * cfg.pageSize + cfg.pageSize, n) - p * cfg.pageSize
  }

  /** What the store manager is given for prompt page `p`: original rows, and the same rows quantized
    * and dequantized. */
  function PromptInput(cfg: CacheConfig, ts: seq<Token>, at: Prompt, p: nat): (x: PageInput)
    requires cfg.Valid() && TokensOk(cfg, ts) && p * cfg.pageSize < |ts|
    ensures InputOk(cfg, x)
  {
    var page := PageTokens(cfg, ts, p);
    PageInput(seq(|page|, i requires 0 <= i < |page| => page[i].k),
              seq(|page|, i requires 0 <= i < |page| => page[i].v),
              seq(|page|, i requires 0 <= i < |page| => Hat(cfg, page[i].k)),
              seq(|page|, i requires 0 <= i < |page| => Hat(cfg, page[i].v)),
              at.start + p * cfg.pageSize, PageValid(cfg, |ts|, p),
              p >= PagesFor(cfg, |ts|) - 4, at.start + p * cfg.pageSize < at.sink)
  }

  lemma EncodedRowsOk(cfg: CacheConfig, ts: seq<Token>)
    requires cfg.Valid() && TokensOk(cfg, ts)
    ensures forall i :: 0 <= i < |ts| ==> RowOk(cfg, EncodeAll(cfg, ts)[i])
  {
    hide RowOk, EncodeRow;
    forall i | 0 <= i < |ts| ensures RowOk(cfg, EncodeAll(cfg, ts)[i]) { EncodedOk(cfg, ts[i]); }
  }

  /** The state a step of head `h` starts from. */
  ghost predicate Ready(m: Manager, st: State, h: nat)
  {
    m.en.Valid() && Inv(m.en.cfg, st) && h < m.en.cfg.numKvHeads
  }

  /** A step that succeeds leaves a state the next one can start from. */
  ghost predicate Kept(m: Manager, r: Option<State>, h: nat) { r.Some? ==> Ready(m, r.value, h) }

  ghost function HeadAt(m: Manager, st: State, h: nat): (hd: Head)
    requires Ready(m, st, h)
    ensures HeadOk(m.en.cfg, hd)
  {
    OneHead(m.en.cfg, st, m.en.layer, h);
    st.heads[m.en.layer][h]
  }

  ghost function WithHead(m: Manager, st: State, h: nat, hd: Head): State
    requires Ready(m, st, h)
  {
    OneHead(m.en.cfg, st, m.en.layer, h);
    SetHead(st, m.en.layer, h, hd)
  }

  /** The page is allocated and its base rows written. */
  ghost function Based(m: Manager, st: State, h: nat, ts: seq<Token>, p: nat): Option<State>
    requires Ready(m, st, h) && TokensOk(m.en.cfg, ts) && p * m.en.cfg.pageSize < |ts|
  {
    var cfg, hd := m.en.cfg, HeadAt(m, st, h);
    match AllocPage(cfg, hd)
    case None => None
    case Some(more) =>
      var rows := EncodeAll(cfg, PageTokens(cfg, ts, p));
      Some(WithHead(m, st, h, WriteBase(more, hd.next, rows, PageValid(cfg, |ts|, p))))
  }

  lemma HeadReplaced(m: Manager, st: State, h: nat, hd: Head)
    requires Ready(m, st, h) && HeadOk(m.en.cfg, hd) && HeadRefs(m.en.cfg, st.k, st.v, hd, m.en.layer, h)
    ensures Inv(m.en.cfg, WithHead(m, st, h, hd)) && HeadAt(m, WithHead(m, st, h, hd), h) == hd
  {
    hide Inv, HeadOk, HeadRefs;
    ArenasOk(m.en.cfg, st);
    OneHead(m.en.cfg, st, m.en.layer, h);
    ExtendsSelf(st.k);
    ExtendsSelf(st.v);
    HeadStep(m.en.cfg, st, m.en.layer, h, hd, st.k, st.v);
  }

  /** Writing a fresh page appends its valid rows to the log, and nothing of the padding. */
  lemma BasedKeeps(m: Manager, st: State, h: nat, ts: seq<Token>, p: nat)
    requires Ready(m, st, h) && TokensOk(m.en.cfg, ts) && p * m.en.cfg.pageSize < |ts|
    requires Based(m, st, h, ts, p).Some?
    ensures var cfg, hd, st' := m.en.cfg, HeadAt(m, st, h), Based(m, st, h, ts, p).value;
      && Ready(m, st', h) && st'.k == st.k && st'.v == st.v
      && var hd' := HeadAt(m, st', h);
      && hd'.next == hd.next + 1 <= |hd'.pages|
      && hd'.pages[hd.next].valid == PageValid(cfg, |ts|, p)
      && hd'.pages[hd.next].meta == None && hd'.pages[..hd.next] == hd.pages[..hd.next]
      && Log(cfg, hd') == Log(cfg, hd) + EncodeAll(cfg, PageTokens(cfg, ts, p))[..PageValid(cfg, |ts|, p)]
      && Target(m, st', h, hd.next)
  {
    hide RowOk, HeadRefs, PageTokens, EncodeRow, HeadsOk;
    var cfg, hd := m.en.cfg, HeadAt(m, st, h);
    OneHead(cfg, st, m.en.layer, h);
    AllocKeeps(cfg, st.k, st.v, hd, m.en.layer, h);
    EncodedRowsOk(cfg, PageTokens(cfg, ts, p));
    var rows, n := EncodeAll(cfg, PageTokens(cfg, ts, p)), PageValid(cfg, |ts|, p);
    var more := AllocPage(cfg, hd).value;
    var page := more.pages[hd.next].(rows := rows, valid := n);
    PageStep(cfg, st.k, st.v, more, hd.next, page, m.en.layer, h);
    var hd' := WriteBase(more, hd.next, rows, n);
    HeadReplaced(m, st, h, hd');
    HeadFilled(cfg, hd);
    HeadFilled(cfg, hd');
    RowsExt(hd.pages, hd'.pages, hd.next);
    OneHead(cfg, WithHead(m, st, h, hd'), m.en.layer, h);
  }

  /** One page of a prompt: allocate, write, process. */
  ghost function WriteOne(m: Manager, st: State, h: nat, ts: seq<Token>, at: Prompt, p: nat): (r: Option<State>)
    requires Ready(m, st, h) && TokensOk(m.en.cfg, ts) && p * m.en.cfg.pageSize < |ts|
    ensures Kept(m, r, h)
  {
    match Based(m, st, h, ts, p)
    case None => None
    case Some(based) =>
      BasedKeeps(m, st, h, ts, p);
      ProcessReady(m, based, h, HeadAt(m, st, h).next, PromptInput(m.en.cfg, ts, at, p));
      Process(m, based, h, HeadAt(m, st, h).next, PromptInput(m.en.cfg, ts, at, p))
  }

  lemma ProcessReady(m: Manager, st: State, h: nat, p: nat, x: PageInput)
    requires Ready(m, st, h) && Target(m, st, h, p) && InputOk(m.en.cfg, x)
    requires x.valid <= HeadAt(m, st, h).pages[p].valid
    ensures Process(m, st, h, p, x).Some? ==> Ready(m, Process(m, st, h, p, x).value, h)
  {
    hide Inv, HeadOk, Process;
    if Process(m, st, h, p, x).Some? { ProcessKeeps(m, st, h, p, x); }
  }

  /** A loop of steps; the first failure ends it. */
  ghost function Iterate<S>(step: (S, nat) -> Option<S>, st: S, n: nat): Option<S>
  {
    if n == 0 then Some(st)
    else
      match Iterate(step, st, n - 1)
      case None => None
      case Some(mid) => step(mid, n - 1)
  }

  // ---- frames ----

  /** Only head `h` of layer `l` may differ. */
  ghost predicate OnlyHead(st: State, st': State, l: nat, h: nat)
  {
    && |st'.heads| == |st.heads|
    && (forall i :: 0 <= i < |st.heads| ==> |st'.heads[i]| == |st.heads[i]|)
    && (forall i, j :: 0 <= i < |st.heads| && 0 <= j < |st.heads[i]| && (i != l || j != h) ==>
          st'.heads[i][j] == st.heads[i][j])
  }

  lemma OnlyHeadSet(st: State, l: nat, h: nat, hd: Head, k: Arena, v: Arena)
    requires l < |st.heads| && h < |st.heads[l]|
    ensures OnlyHead(st, State(SetHead(st, l, h, hd).heads, k, v), l, h)
  {
  }

  lemma OnlyHeadTrans(a: State, b: State, c: State, l: nat, h: nat)
    requires OnlyHead(a, b, l, h) && OnlyHead(b, c, l, h)
    ensures OnlyHead(a, c, l, h)
  {
  }

  /** Nothing already stored in either arena changes. */
  ghost predicate Grows(st: State, st': State) { Extends(st.k, st'.k) && Extends(st.v, st'.v) }

  lemma GrowsSelf(st: State)
    ensures Grows(st, st)
  {
    ExtendsSelf(st.k);
    ExtendsSelf(st.v);
  }

  lemma GrowsTrans(a: State, b: State, c: State)
    requires Grows(a, b) && Grows(b, c)
    ensures Grows(a, c)
  {
    hide Extends;
    ExtendsTrans(a.k, b.k, c.k);
    ExtendsTrans(a.v, b.v, c.v);
  }

  // ---- processing a page in place ----

  /** Processing changes one page's metadata, not the token log. */
  lemma Processed(m: Manager, st: State, h: nat, p: nat, x: PageInput)
    requires Ready(m, st, h) && Target(m, st, h, p) && InputOk(m.en.cfg, x) && Process(m, st, h, p, x).Some?
    requires x.valid <= HeadAt(m, st, h).pages[p].valid
    ensures var cfg, hd, st' := m.en.cfg, HeadAt(m, st, h), Process(m, st, h, p, x).value;
      && Ready(m, st', h) && Grows(st, st') && OnlyHead(st, st', m.en.layer, h)
      && var hd' := HeadAt(m, st', h);
      && hd'.next == hd.next && Log(cfg, hd') == Log(cfg, hd)
      && |hd'.pages| == |hd.pages| && p < |hd.pages|
      && (forall q :: 0 <= q < |hd.pages| && q != p ==> hd'.pages[q] == hd.pages[q])
      && hd'.pages[p].valid == hd.pages[p].valid && hd'.pages[p].meta.Some?
      && hd'.pages[p].meta.value.numTokens == x.valid && hd'.pages[p].meta.value.tokenStart == x.start
      && |st'.k.claims| == |st.k.claims| + |SelectedOf(m, KSlot, x, p)|
      && |st'.v.claims| == |st.v.claims| + |SelectedOf(m, VSlot, x, p)|
  {
    hide SelectedOf, Inv, HeadOk, Taken, SlotList, Errors, Sketches, Selected;
    var hd := HeadAt(m, st, h);
    var st' := Process(m, st, h, p, x).value;
    ProcessKeeps(m, st, h, p, x);
    OnlyHeadSet(st, m.en.layer, h, SetMeta(hd, p, NewMeta(m, st, h, p, x)), st'.k, st'.v);
    MetaKeepsLog(m.en.cfg, hd, p, NewMeta(m, st, h, p, x));
  }
}
