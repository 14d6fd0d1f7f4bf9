/** What the sketch product estimates: the query times the mean residual of a channel group, seen through the
  * projection. */
module SketchDots {

  import opened Numbers
  import opened Sums
  import opened Config
  import opened Pages
  import opened Selection
  import opened Router
  import opened StorePlan
  import opened Correction

  // ---- products of projections ----

  /** Entry `(c, d)` of the projection times its transpose. */
  function Gram(proj: seq<Vec>, k: nat, c: int, d: int): real { Sum(0, k, GramTerm(proj, c, d)) }

  function GramTerm(proj: seq<Vec>, c: int, d: int): int -> real { j => Prod(At2(proj, c, j), At2(proj, d, j)) }

  /** Entry `j` of a vector times the projection. */
  function Projected(proj: seq<Vec>, w: nat, a: int -> real, j: int): real { Sum(0, w, ProjectedTerm(proj, a, j)) }

  function ProjectedTerm(proj: seq<Vec>, a: int -> real, j: int): int -> real { c => Prod(a(c), At2(proj, c, j)) }

  /** Row `c` of the Gram matrix times a vector. */
  function GramRow(proj: seq<Vec>, k: nat, w: nat, b: int -> real, c: int): real
  {
    Sum(0, w, GramRowTerm(proj, k, b, c))
  }

  function GramRowTerm(proj: seq<Vec>, k: nat, b: int -> real, c: int): int -> real
  {
    d => Prod(b(d), Gram(proj, k, c, d))
  }

  lemma ProdSwap(x: real, y: real, z: real)
    ensures Prod(x, Prod(y, z)) == Prod(y, Prod(x, z)) && Prod(Prod(x, y), z) == Prod(x, Prod(y, z))
    ensures Prod(x, y) == Prod(y, x)
  {
  }

  /** Projecting, and then weighting by a row of the projection, is a row of the Gram matrix. */
  lemma ProjectedTwice(proj: seq<Vec>, k: nat, w: nat, b: int -> real, c: int, f: int -> real)
    requires forall j :: 0 <= j < k ==> f(j) == Prod(At2(proj, c, j), Projected(proj, w, b, j))
    ensures Sum(0, k, f) == GramRow(proj, k, w, b, c)
  {
    hide Sum, Prod, At2;
    var cell := (j: int, d: int) => Prod(b(d), Prod(At2(proj, c, j), At2(proj, d, j)));
    forall j | 0 <= j < k ensures f(j) == Sum(0, w, AlongRow(cell, j)) {
      forall d ensures AlongRow(cell, j)(d) == Prod(At2(proj, c, j), ProjectedTerm(proj, b, j)(d)) {
        ProdSwap(b(d), At2(proj, c, j), At2(proj, d, j));
      }
      SumProd(0, w, At2(proj, c, j), ProjectedTerm(proj, b, j), AlongRow(cell, j));
    }
    forall d | 0 <= d < w ensures GramRowTerm(proj, k, b, c)(d) == Sum(0, k, AlongColumn(cell, d)) {
      SumProd(0, k, b(d), GramTerm(proj, c, d), AlongColumn(cell, d));
    }
    SumSwap(k, w, cell, f, GramRowTerm(proj, k, b, c));
  }

  /** The product of two projected vectors is their product through the Gram matrix. */
  lemma ProjectedProduct(proj: seq<Vec>, k: nat, w: nat, a: int -> real, b: int -> real, f: int -> real,
                         g: int -> real)
    requires forall j :: 0 <= j < k ==> f(j) == Prod(Projected(proj, w, a, j), Projected(proj, w, b, j))
    requires forall c :: 0 <= c < w ==> g(c) == Prod(a(c), GramRow(proj, k, w, b, c))
    ensures Sum(0, k, f) == Sum(0, w, g)
  {
    hide Sum, Prod, At2, GramRow;
    var cell := (j: int, c: int) => Prod(a(c), Prod(At2(proj, c, j), Projected(proj, w, b, j)));
    forall j | 0 <= j < k ensures f(j) == Sum(0, w, AlongRow(cell, j)) {
      var y := Projected(proj, w, b, j);
      forall c ensures AlongRow(cell, j)(c) == Prod(y, ProjectedTerm(proj, a, j)(c)) {
        ProdSwap(a(c), At2(proj, c, j), y);
        ProdSwap(Prod(a(c), At2(proj, c, j)), y, 0.0);
      }
      SumProd(0, w, y, ProjectedTerm(proj, a, j), AlongRow(cell, j));
      ProdSwap(y, Projected(proj, w, a, j), 0.0);
    }
    forall c | 0 <= c < w ensures g(c) == Sum(0, k, AlongColumn(cell, c)) {
      var inner := (j: int) => Prod(At2(proj, c, j), Projected(proj, w, b, j));
      ProjectedTwice(proj, k, w, b, c, inner);
      SumProd(0, k, a(c), inner, AlongColumn(cell, c));
    }
    SumSwap(k, w, cell, f, g);
  }

  // ---- the sketch of a page ----

  /** What dequantizing lost of one channel of a group, token by token. */
  function LostAt(cfg: CacheConfig, x: PageInput, g: nat, c: int): int -> real
  {
    t => At2(x.kOrig, t, g * cfg.kChannelGroup + c) - At2(x.kHat, t, g * cfg.kChannelGroup + c)
  }

  /** The mean of it over the page's tokens. */
  function MeanLost(cfg: CacheConfig, x: PageInput, g: nat): int -> real { c => Mean(x.valid, LostAt(cfg, x, g, c)) }

  /** The query on the channels of a group. */
  function OnGroup(cfg: CacheConfig, q: Vec, g: nat): int -> real { c => At(q, g * cfg.kChannelGroup + c) }

  lemma BlockChannel(cfg: CacheConfig, x: PageInput, g: nat, t: int, c: int)
    requires cfg.Valid() && InputOk(cfg, x) && g < cfg.NumCg() && 0 <= t < x.valid && 0 <= c < cfg.kChannelGroup
    ensures At2(BlockOf(cfg, KSlot, ResidualOf(cfg, KSlot, x), g), t, c) == LostAt(cfg, x, g, c)(t)
  {
    hide CacheConfig.NumCg, Residual;
    ChannelGroupFits(cfg, g);
    ResidualRow(x.kOrig, x.kHat, x.valid, cfg.pageSize, cfg.headDim, t);
    assert BlockRow(cfg, KSlot, ResidualOf(cfg, KSlot, x), g, t)[c] == LostAt(cfg, x, g, c)(t);
  }

  /** The stored sketch is the projection of the mean residual. */
  lemma SketchIsProjected(m: Manager, x: PageInput, g: nat, j: nat)
    requires m.en.Valid() && InputOk(m.en.cfg, x) && g < m.en.cfg.NumCg() && j < |Sketch(m, x, g)|
    ensures Sketch(m, x, g)[j] == Projected(m.en.ker.proj, m.en.cfg.kChannelGroup, MeanLost(m.en.cfg, x, g), j)
  {
    hide BlockOf, ResidualOf, CacheConfig.NumCg, Sum, At2, Mean;
    var cfg, rows := m.en.cfg, BlockOf(m.en.cfg, KSlot, ResidualOf(m.en.cfg, KSlot, x), g);
    var f := c => Mean(x.valid, Column(rows, c)) * At2(m.en.ker.proj, c, j);
    forall c | 0 <= c < cfg.kChannelGroup ensures f(c) == ProjectedTerm(m.en.ker.proj, MeanLost(cfg, x, g), j)(c) {
      forall t | 0 <= t < x.valid ensures At2(rows, t, c) == LostAt(cfg, x, g, c)(t) { BlockChannel(cfg, x, g, t, c); }
      MeanExt(x.valid, Column(rows, c), LostAt(cfg, x, g, c));
      assert MeanLost(cfg, x, g)(c) == Mean(x.valid, Column(rows, c));
    }
    SumExt(0, cfg.kChannelGroup, f, ProjectedTerm(m.en.ker.proj, MeanLost(cfg, x, g), j));
  }

  /** A slot's entry whose sketch was made from page `x`. */
  predicate SketchOf(m: Manager, x: PageInput, e: Entry)
    requires m.en.Valid() && InputOk(m.en.cfg, x)
  {
    e.group < m.en.cfg.NumCg() && e.sketch == Sketch(m, x, e.group)
  }

  /** Columns of the projection. */
  function Width(proj: seq<Vec>): nat { if proj == [] then 0 else |proj[0]| }

  /** The query on the channels of a group, times a vector seen through the Gram matrix, channel by channel. */
  function ThroughGram(en: Engine, g: nat, q: Vec, b: int -> real): int -> real
  {
    c => Prod(At(q, g * en.cfg.kChannelGroup + c), GramRow(en.ker.proj, Width(en.ker.proj), en.cfg.kChannelGroup, b, c))
  }

  /** The router's estimate for a slot whose sketch is the projection of a vector. */
  lemma DotThroughGram(en: Engine, q: Vec, e: Entry, b: int -> real)
    requires |e.sketch| == Width(en.ker.proj)
    requires forall j :: 0 <= j < |e.sketch| ==> e.sketch[j] == Projected(en.ker.proj, en.cfg.kChannelGroup, b, j)
    ensures SketchDot(en, q, e) == Abs(Sum(0, en.cfg.kChannelGroup, ThroughGram(en, e.group, q, b)))
  {
    hide Sum, At2, GramRow, Abs;
    var cfg, proj, w, k, g := en.cfg, en.ker.proj, en.cfg.kChannelGroup, |e.sketch|, e.group;
    var dot := j => Sum(0, w, c => At(q, e.group * w + c) * At2(proj, c, j)) * At(e.sketch, j);
    forall j | 0 <= j < k ensures dot(j) == Prod(Projected(proj, w, OnGroup(cfg, q, g), j), Projected(proj, w, b, j)) {
      var f := c => At(q, e.group * w + c) * At2(proj, c, j);
      forall c | 0 <= c < w ensures f(c) == ProjectedTerm(proj, OnGroup(cfg, q, g), j)(c) {
        assert OnGroup(cfg, q, g)(c) == At(q, e.group * w + c);
      }
      SumExt(0, w, f, ProjectedTerm(proj, OnGroup(cfg, q, g), j));
    }
    assert SketchDot(en, q, e) == Abs(Sum(0, k, dot));
    ProjectedProduct(proj, k, w, OnGroup(cfg, q, g), b, dot, ThroughGram(en, g, q, b));
  }

  /** The router's estimate for a stored slot is the size of the query, on the slot's own channels, times the mean of
    * original less dequantized keys over the page's tokens, through the Gram matrix of the projection. */
  lemma SketchEstimates(m: Manager, x: PageInput, e: Entry, q: Vec)
    requires m.en.Valid() && InputOk(m.en.cfg, x) && SketchOf(m, x, e)
    ensures SketchDot(m.en, q, e)
         == Abs(Sum(0, m.en.cfg.kChannelGroup, ThroughGram(m.en, e.group, q, MeanLost(m.en.cfg, x, e.group))))
  {
    hide Sum, Sketch, CacheConfig.NumCg, SketchDot, Abs, Projected, ThroughGram;
    SketchWidth(m, x, e.group);
    forall j | 0 <= j < |e.sketch|
      ensures e.sketch[j] == Projected(m.en.ker.proj, m.en.cfg.kChannelGroup, MeanLost(m.en.cfg, x, e.group), j)
    {
      SketchIsProjected(m, x, e.group, j);
    }
    DotThroughGram(m.en, q, e, MeanLost(m.en.cfg, x, e.group));
  }

  lemma SketchWidth(m: Manager, x: PageInput, g: nat)
    requires m.en.Valid() && InputOk(m.en.cfg, x) && g < m.en.cfg.NumCg()
    ensures |Sketch(m, x, g)| == Width(m.en.ker.proj)
  {
  }

  // ---- an orthonormal projection ----

  /** `P·Pᵀ = I`. */
  predicate RowsOrthonormal(proj: seq<Vec>, w: nat)
  {
    proj != [] && forall c, d :: 0 <= c < w && 0 <= d < w ==>
      Gram(proj, |proj[0]|, c, d) == if c == d then 1.0 else 0.0
  }

  lemma UnitRow(proj: seq<Vec>, w: nat, b: int -> real, c: nat)
    requires RowsOrthonormal(proj, w) && c < w
    ensures GramRow(proj, |proj[0]|, w, b, c) == b(c)
  {
    hide Sum, Gram;
    var f := GramRowTerm(proj, |proj[0]|, b, c);
    forall d | 0 <= d < w && d != c ensures f(d) == 0.0 { ProdZero(b(d)); }
    SumSingle(0, w, f, c);
    assert Prod(b(c), 1.0) == b(c);
  }

  /** The slot's residual block times the query, at token `t` of the page: what reading the block would add. */
  function PageDot(m: Manager, x: PageInput, e: Entry, q: Vec): int -> real
    requires m.en.Valid() && InputOk(m.en.cfg, x) && e.group < m.en.cfg.NumCg()
  {
    t => KDot(m.en.cfg.kChannelGroup, e, BlockOf(m.en.cfg, KSlot, ResidualOf(m.en.cfg, KSlot, x), e.group), q,
              e.start + t)
  }

  function Weighted(a: int -> real, cell: (int, int) -> real): (int, int) -> real { (t, c) => Prod(a(c), cell(t, c)) }

  /** The mean of products with one vector is the product with the mean. */
  lemma MeanOfProducts(n: nat, w: nat, a: int -> real, cell: (int, int) -> real, dots: int -> real, means: int -> real)
    requires forall c :: 0 <= c < w ==> means(c) == Prod(a(c), Mean(n, AlongColumn(cell, c)))
    requires forall t :: 0 <= t < n ==> dots(t) == Sum(0, w, AlongRow(Weighted(a, cell), t))
    ensures Sum(0, w, means) == Mean(n, dots)
  {
    hide Sum, Prod;
    var scaled := Weighted(a, cell);
    var sums := c => Prod(a(c), Sum(0, n, AlongColumn(cell, c)));
    forall c | 0 <= c < w ensures sums(c) == Sum(0, n, AlongColumn(scaled, c)) {
      SumProd(0, n, a(c), AlongColumn(cell, c), AlongColumn(scaled, c));
    }
    SumSwap(n, w, scaled, dots, sums);
    if n > 0 {
      forall c | 0 <= c < w ensures means(c) == (1.0 / n as real) * sums(c) {
        MeanInside(a(c), Sum(0, n, AlongColumn(cell, c)), n as real);
      }
      SumScale(0, w, 1.0 / n as real, sums, means);
      DivAsMul(Sum(0, n, dots), n as real);
    } else {
      forall c | 0 <= c < w ensures means(c) == 0.0 { ProdZero(a(c)); }
      SumZero(0, w, means);
    }
  }

  lemma MeanInside(a: real, s: real, n: real)
    requires n > 0.0
    ensures Prod(a, s / n) == (1.0 / n) * Prod(a, s)
  {
    DivAsMul(s, n);
  }

  /** What reading the block adds to the logit of one token of the page. */
  lemma TokenDot(m: Manager, x: PageInput, e: Entry, q: Vec, t: nat, a: int -> real, cell: (int, int) -> real)
    requires m.en.Valid() && InputOk(m.en.cfg, x) && e.group < m.en.cfg.NumCg() && t < x.valid
    requires a == OnGroup(m.en.cfg, q, e.group)
    requires forall c: nat :: c < m.en.cfg.kChannelGroup ==> cell(t, c) == LostAt(m.en.cfg, x, e.group, c)(t)
    ensures PageDot(m, x, e, q)(t) == Sum(0, m.en.cfg.kChannelGroup, AlongRow(Weighted(a, cell), t))
  {
    hide Sum, CacheConfig.NumCg, BlockOf, ResidualOf;
    var cfg, w, g := m.en.cfg, m.en.cfg.kChannelGroup, e.group;
    var block := BlockOf(cfg, KSlot, ResidualOf(cfg, KSlot, x), g);
    forall c | 0 <= c < w
      ensures Channel(w, e, block, q, e.start + t)(c) == AlongRow(Weighted(a, cell), t)(c)
    {
      BlockChannel(cfg, x, g, t, c);
    }
    SumExt(0, w, Channel(w, e, block, q, e.start + t), AlongRow(Weighted(a, cell), t));
    assert PageDot(m, x, e, q)(t) == KDot(w, e, block, q, e.start + t);
  }

  /** With an orthonormal projection the estimate is the size of the mean, over the page's tokens, of the products
    * that reading the block would add to their logits. */
  lemma OrthonormalEstimates(m: Manager, x: PageInput, e: Entry, q: Vec)
    requires m.en.Valid() && InputOk(m.en.cfg, x) && SketchOf(m, x, e)
    requires RowsOrthonormal(m.en.ker.proj, m.en.cfg.kChannelGroup)
    ensures SketchDot(m.en, q, e) == Abs(Mean(x.valid, PageDot(m, x, e, q)))
  {
    hide Sum, Sketch, CacheConfig.NumCg, Abs, GramRow, RowsOrthonormal, BlockOf, ResidualOf, Mean, SketchDot;
    var cfg, w, g := m.en.cfg, m.en.cfg.kChannelGroup, e.group;
    SketchEstimates(m, x, e, q);
    var a, cell := OnGroup(cfg, q, g), (t: int, c: int) => LostAt(cfg, x, g, c)(t);
    var means := ThroughGram(m.en, g, q, MeanLost(cfg, x, g));
    forall c | 0 <= c < w ensures means(c) == Prod(a(c), Mean(x.valid, AlongColumn(cell, c))) {
      ProjNonEmpty(m.en.ker.proj, w);
      UnitRow(m.en.ker.proj, w, MeanLost(cfg, x, g), c);
      MeanExt(x.valid, LostAt(cfg, x, g, c), AlongColumn(cell, c));
    }
    forall t | 0 <= t < x.valid ensures PageDot(m, x, e, q)(t) == Sum(0, w, AlongRow(Weighted(a, cell), t)) {
      TokenDot(m, x, e, q, t, a, cell);
    }
    MeanOfProducts(x.valid, w, a, cell, PageDot(m, x, e, q), means);
  }

  lemma ProjNonEmpty(proj: seq<Vec>, w: nat)
    requires RowsOrthonormal(proj, w)
    ensures proj != []
  {
  }

  lemma MeanExt(n: nat, f: int -> real, g: int -> real)
    requires forall t :: 0 <= t < n ==> f(t) == g(t)
    ensures Mean(n, f) == Mean(n, g)
  {
    SumExt(0, n, f, g);
  }

  /** Two queries are the same on `w` channels from `lo` on. */
  predicate AgreeOn(q: Vec, q': Vec, lo: nat, w: nat) { forall c :: lo <= c < lo + w ==> At(q, c) == At(q', c) }

  /** Channels outside the slot's group change nothing. */
  lemma OtherChannelsMute(en: Engine, q: Vec, q': Vec, e: Entry)
    requires AgreeOn(q, q', e.group * en.cfg.kChannelGroup, en.cfg.kChannelGroup)
    ensures SketchDot(en, q, e) == SketchDot(en, q', e)
  {
    hide Sum, At2, Abs;
    var w, proj := en.cfg.kChannelGroup, en.ker.proj;
    var f := j => Sum(0, w, c => At(q, e.group * w + c) * At2(proj, c, j)) * At(e.sketch, j);
    var g := j => Sum(0, w, c => At(q', e.group * w + c) * At2(proj, c, j)) * At(e.sketch, j);
    forall j ensures f(j) == g(j) {
      var a := c => At(q, e.group * w + c) * At2(proj, c, j);
      var b := c => At(q', e.group * w + c) * At2(proj, c, j);
      forall c | 0 <= c < w ensures a(c) == b(c) {
        var i := e.group * w + c;
        assert At(q, i) == At(q', i);
      }
      SumExt(0, w, a, b);
    }
    SumExt(0, |e.sketch|, f, g);
  }
}
