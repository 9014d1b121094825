/** One module of the stack (models/independent_module.py, `IndependentModule`):
    the encoder's mean and log-variance are brought from [B, C, L] to
    [B, L, C], optionally sampled by the reparameterisation trick, scored by
    the contrastive loss, and, when distributions are predicted, regularised by
    the KL divergence to a standard normal.

    The encoder, `exp` and the InfoNCE loss are outside this model: the encoder's
    output is an argument, and `exp` and the loss are fields of a `Numerics`
    record, about which only `exp(0) == 1` is assumed where it is needed.
    The standard-normal draws of `randn_like` are arguments too. */
module Latent {
  import opened Tensors

  /** Mean and log-variance of a diagonal Gaussian, one entry per tensor position. */
  datatype Distribution = Distribution(mu: Tensor3, logVar: Tensor3)

  predicate Matching(d: Distribution)
  {
    d.mu.shape == d.logVar.shape
  }

  /** What `InfoNCE_Loss.get_loss` returns: the loss and the accuracies. */
  datatype NceResult = NceResult(loss: real, accuracy: seq<real>)

  /** The numerical primitives this model leaves uninterpreted. */
  datatype Numerics = Numerics(exp: real -> real, infoNce: (Tensor3, Tensor3) -> NceResult)

  predicate ExpAtZero(n: Numerics)
  {
    n.exp(0.0) == 1.0
  }

  /** The module's configuration: the distribution flag and the KL weight. */
  datatype ModuleConfig = ModuleConfig(predictDistributions: bool, kldWeight: real)

  /** Standard-normal draws for the context sample and for the target sample. */
  datatype Noise = Noise(context: Tensor3, target: Tensor3)

  /* ----------------------------------------------------------------------- */
  /* Latent parameters and sampling                                           */
  /* ----------------------------------------------------------------------- */

  /** `_get_latent_params`: both encoder outputs transposed from [B, C, L] to
      [B, L, C]; the same pair serves as the context and the target parameters. */
  function LatentParams(enc: Distribution): (r: (Distribution, Distribution))
    requires Matching(enc)
    ensures r.0 == r.1
    ensures Matching(r.0)
    ensures r.0.mu.shape == Shape(enc.mu.shape.batch, enc.mu.shape.cols, enc.mu.shape.rows)
    ensures forall b, l, c :: 0 <= b < enc.mu.shape.batch && 0 <= l < enc.mu.shape.cols && 0 <= c < enc.mu.shape.rows ==>
              r.0.mu.data[b][l][c] == enc.mu.data[b][c][l] && r.0.logVar.data[b][l][c] == enc.logVar.data[b][c][l]
  {
    var d := Distribution(SwapLastAxes(enc.mu), SwapLastAxes(enc.logVar));
    (d, d)
  }

  /** The transpose loses nothing: transposing the latent parameters back gives
      the encoder's output. */
  lemma LatentParamsInvertible(enc: Distribution)
    requires Matching(enc)
    ensures SwapLastAxes(LatentParams(enc).0.mu) == enc.mu
    ensures SwapLastAxes(LatentParams(enc).0.logVar) == enc.logVar
  {
    SwapLastAxesInvolution(enc.mu);
    SwapLastAxesInvolution(enc.logVar);
  }

  /** `_reparameterize` with the draw `eps` supplied: `eps * exp(0.5 * logvar) + mu`. */
  function Reparameterize(d: Distribution, eps: Tensor3, exp: real -> real): (r: Tensor3)
    requires Matching(d) && eps.shape == d.mu.shape
    ensures r.shape == d.mu.shape
  {
    var s := d.mu.shape;
    Tensor(s, seq(s.batch, b requires 0 <= b < s.batch =>
                seq(s.rows, i requires 0 <= i < s.rows =>
                  seq(s.cols, j requires 0 <= j < s.cols =>
                    eps.data[b][i][j] * exp(0.5 * d.logVar.data[b][i][j]) + d.mu.data[b][i][j]))))
  }

  /** Each sampled entry depends on the draw, mean and log-variance at the same
      position only: the mean shifted by the draw times the standard deviation. */
  lemma ReparameterizeAt(d: Distribution, eps: Tensor3, exp: real -> real, b: nat, i: nat, j: nat)
    requires Matching(d) && eps.shape == d.mu.shape
    requires b < d.mu.shape.batch && i < d.mu.shape.rows && j < d.mu.shape.cols
    ensures Reparameterize(d, eps, exp).data[b][i][j] ==
              eps.data[b][i][j] * exp(0.5 * d.logVar.data[b][i][j]) + d.mu.data[b][i][j]
  {
  }

  /** A zero draw gives back the mean exactly, whatever the variance. */
  lemma ZeroNoiseGivesMean(d: Distribution, exp: real -> real)
    requires Matching(d)
    ensures Reparameterize(d, Filled(d.mu.shape, 0.0), exp) == d.mu
  {
    var r := Reparameterize(d, Filled(d.mu.shape, 0.0), exp);
    forall b | 0 <= b < d.mu.shape.batch
      ensures r.data[b] == d.mu.data[b]
    {
      forall i | 0 <= i < d.mu.shape.rows
        ensures r.data[b][i] == d.mu.data[b][i]
      {
        forall j | 0 <= j < d.mu.shape.cols
          ensures r.data[b][i][j] == d.mu.data[b][i][j]
        {
          ReparameterizeAt(d, Filled(d.mu.shape, 0.0), exp, b, i, j);
        }
      }
    }
  }

  /** `get_latents`: one sample, returned in both roles: the reparameterised
      draw when distributions are predicted, the mean otherwise. */
  function GetLatents(cfg: ModuleConfig, enc: Distribution, eps: Tensor3, exp: real -> real): (r: (Tensor3, Tensor3))
    requires Matching(enc)
    requires cfg.predictDistributions ==> eps.shape == LatentParams(enc).0.mu.shape
    ensures r.0 == r.1
    ensures r.0.shape == LatentParams(enc).0.mu.shape
    ensures !cfg.predictDistributions ==> r.0 == SwapLastAxes(enc.mu)
    ensures cfg.predictDistributions ==> r.0 == Reparameterize(LatentParams(enc).0, eps, exp)
  {
    var (ctx, _) := LatentParams(enc);
    var sample := if cfg.predictDistributions then Reparameterize(ctx, eps, exp) else ctx.mu;
    (sample, sample)
  }

  /* ----------------------------------------------------------------------- */
  /* KL divergence to the standard normal                                     */
  /* ----------------------------------------------------------------------- */

  /** The per-position KL integrand `1 + logvar - mu^2 - exp(logvar)`. */
  function KlTerms(d: Distribution, exp: real -> real): (t: Tensor3)
    requires Matching(d)
    ensures t.shape == d.mu.shape
  {
    var s := d.mu.shape;
    Tensor(s, seq(s.batch, b requires 0 <= b < s.batch =>
                seq(s.rows, i requires 0 <= i < s.rows =>
                  seq(s.cols, j requires 0 <= j < s.cols =>
                    1.0 + d.logVar.data[b][i][j] - d.mu.data[b][i][j] * d.mu.data[b][i][j] - exp(d.logVar.data[b][i][j])))))
  }

  /** Each entry of the integrand is computed from the mean and log-variance
      at the same position only. */
  lemma KlTermAt(d: Distribution, exp: real -> real, b: nat, i: nat, j: nat)
    requires Matching(d) && b < d.mu.shape.batch && i < d.mu.shape.rows && j < d.mu.shape.cols
    ensures var mu, lv := d.mu.data[b][i][j], d.logVar.data[b][i][j];
            KlTerms(d, exp).data[b][i][j] == 1.0 + lv - mu * mu - exp(lv)
  {
  }

  /** The values of `t` along its middle axis at batch `b`, last-axis index `j`. */
  function Fiber(t: Tensor3, b: nat, j: nat): (f: seq<real>)
    requires b < t.shape.batch && j < t.shape.cols
    ensures |f| == t.shape.rows
  {
    seq(t.shape.rows, i requires 0 <= i < t.shape.rows => t.data[b][i][j])
  }

  /** `torch.sum(t, dim=1)`: a [B, cols] matrix. */
  function SumOverMiddleAxis(t: Tensor3): (m: seq<seq<real>>)
    ensures |m| == t.shape.batch && IsMatrix(m, t.shape.cols)
  {
    seq(t.shape.batch, b requires 0 <= b < t.shape.batch =>
      seq(t.shape.cols, j requires 0 <= j < t.shape.cols => Sum(Fiber(t, b, j))))
  }

  /** The reduction `forward` applies to the KL integrand `t`, laid out
      [B, L, C]: summed over dim 1 (the time axis L), scaled by -0.5, averaged
      over the batch, then averaged over the C channels. */
  function KlReduction(t: Tensor3): real
    requires t.shape.batch > 0 && t.shape.cols > 0
  {
    Mean(ColumnMean(ScaleRows(-0.5, SumOverMiddleAxis(t)), t.shape.cols))
  }

  /** The KL term of `forward` on latent parameters laid out [B, L, C]. */
  function Kld(d: Distribution, exp: real -> real): real
    requires Matching(d) && d.mu.shape.batch > 0 && d.mu.shape.cols > 0
  {
    KlReduction(KlTerms(d, exp))
  }

  lemma NegativeHalfOfNonPositive(x: real)
    requires x <= 0.0
    ensures -0.5 * x >= 0.0
  {
  }

  /** An integrand that is nowhere positive reduces to a non-negative value. */
  lemma KlReductionNonNegative(t: Tensor3)
    requires t.shape.batch > 0 && t.shape.cols > 0
    requires forall b, i, j :: 0 <= b < t.shape.batch && 0 <= i < t.shape.rows && 0 <= j < t.shape.cols ==>
               t.data[b][i][j] <= 0.0
    ensures KlReduction(t) >= 0.0
  {
    var s := SumOverMiddleAxis(t);
    var scaled := ScaleRows(-0.5, s);
    assert IsMatrix(scaled, t.shape.cols);
    forall b, j | 0 <= b < t.shape.batch && 0 <= j < t.shape.cols
      ensures scaled[b][j] >= 0.0
    {
      SumNonPositive(Fiber(t, b, j));
      NegativeHalfOfNonPositive(s[b][j]);
    }
    ColumnMeanNonNegative(scaled, t.shape.cols);
    MeanNonNegative(ColumnMean(scaled, t.shape.cols));
  }

  /** An integrand that is zero everywhere reduces to zero. */
  lemma KlReductionOfZeros(t: Tensor3)
    requires t.shape.batch > 0 && t.shape.cols > 0
    requires forall b, i, j :: 0 <= b < t.shape.batch && 0 <= i < t.shape.rows && 0 <= j < t.shape.cols ==>
               t.data[b][i][j] == 0.0
    ensures KlReduction(t) == 0.0
  {
    var zero := Constant(t.shape.cols, 0.0);
    var s := SumOverMiddleAxis(t);
    var scaled := ScaleRows(-0.5, s);
    forall b | 0 <= b < t.shape.batch
      ensures scaled[b] == zero
    {
      forall j | 0 <= j < t.shape.cols
        ensures scaled[b][j] == zero[j]
      {
        SumConstant(Fiber(t, b, j), 0.0);
      }
    }
    ColumnMeanOfCopies(scaled, zero);
    MeanOfConstant(zero, 0.0);
  }

  /** The standard normal itself (mean 0, log-variance 0) is at KL divergence 0. */
  lemma StandardNormalHasZeroKld(s: Shape, exp: real -> real)
    requires s.batch > 0 && s.cols > 0
    requires exp(0.0) == 1.0
    ensures Kld(Distribution(Filled(s, 0.0), Filled(s, 0.0)), exp) == 0.0
  {
    var d := Distribution(Filled(s, 0.0), Filled(s, 0.0));
    var t := KlTerms(d, exp);
    forall b, i, j | 0 <= b < s.batch && 0 <= i < s.rows && 0 <= j < s.cols
      ensures t.data[b][i][j] == 0.0
    {
      KlTermAt(d, exp, b, i, j);
    }
    KlReductionOfZeros(t);
  }

  /** With `exp(x) >= 1 + x`, every integrand is at most zero, so the KL term is
      never negative. */
  lemma KldNonNegative(d: Distribution, exp: real -> real)
    requires Matching(d) && d.mu.shape.batch > 0 && d.mu.shape.cols > 0
    requires forall x :: exp(x) >= 1.0 + x
    ensures Kld(d, exp) >= 0.0
  {
    var t := KlTerms(d, exp);
    forall b, i, j | 0 <= b < t.shape.batch && 0 <= i < t.shape.rows && 0 <= j < t.shape.cols
      ensures t.data[b][i][j] <= 0.0
    {
      var lv := d.logVar.data[b][i][j];
      assert exp(lv) >= 1.0 + lv;
      KlTermAt(d, exp, b, i, j);
    }
    KlReductionNonNegative(t);
  }

  /* ----------------------------------------------------------------------- */
  /* forward                                                                  */
  /* ----------------------------------------------------------------------- */

  /** What `forward` returns: a one-element loss vector, a one-element
      accuracy vector (for the replica axis) and the representation. */
  datatype ModuleOutput = ModuleOutput(loss: seq<real>, accuracy: seq<seq<real>>, representation: Tensor3)

  /** The noise `forward` needs: two draws of the latent shape when
      distributions are predicted, nothing otherwise. The KL term's two means
      need a non-empty batch and at least one channel. */
  predicate ForwardInputs(cfg: ModuleConfig, enc: Distribution, noise: Noise)
  {
    && Matching(enc)
    && (cfg.predictDistributions ==>
          && noise.context.shape == Shape(enc.mu.shape.batch, enc.mu.shape.cols, enc.mu.shape.rows)
          && noise.target.shape == noise.context.shape
          && enc.mu.shape.batch > 0 && enc.mu.shape.rows > 0)
  }

  /** `loss = nce_loss + kld_weight * kld`. */
  function CombinedLoss(nceLoss: real, kldWeight: real, kld: real): (r: real)
    ensures kldWeight == 0.0 || kld == 0.0 ==> r == nceLoss
    ensures kldWeight >= 0.0 && kld >= 0.0 ==> r >= nceLoss
  {
    nceLoss + kldWeight * kld
  }

  /** `forward` on the encoder's output `enc` (laid out [B, C, L]). The loss is
      called as `get_loss(z, c)`, target first; the representation handed on
      is `z`, the target sample. */
  function Forward(cfg: ModuleConfig, enc: Distribution, noise: Noise, n: Numerics): (r: ModuleOutput)
    requires ForwardInputs(cfg, enc, noise)
    ensures |r.loss| == 1 && |r.accuracy| == 1
    ensures r.representation.shape == Shape(enc.mu.shape.batch, enc.mu.shape.cols, enc.mu.shape.rows)
    ensures !cfg.predictDistributions ==>
              && r.representation == SwapLastAxes(enc.mu)
              && r.loss[0] == n.infoNce(r.representation, r.representation).loss
              && r.accuracy[0] == n.infoNce(r.representation, r.representation).accuracy
    ensures cfg.predictDistributions ==>
              var params := LatentParams(enc).0;
              && r.representation == Reparameterize(params, noise.target, n.exp)
              && r.loss[0] == CombinedLoss(n.infoNce(r.representation, Reparameterize(params, noise.context, n.exp)).loss,
                                           cfg.kldWeight, Kld(params, n.exp))
              && r.accuracy[0] == n.infoNce(r.representation, Reparameterize(params, noise.context, n.exp)).accuracy
  {
    var (ctx, tgt) := LatentParams(enc);
    if cfg.predictDistributions then
      var c := Reparameterize(ctx, noise.context, n.exp);
      var z := Reparameterize(tgt, noise.target, n.exp);
      var kld := Kld(ctx, n.exp);
      var nce := n.infoNce(z, c);
      ModuleOutput([CombinedLoss(nce.loss, cfg.kldWeight, kld)], [nce.accuracy], z)
    else
      var c := ctx.mu;
      var z := tgt.mu;
      var nce := n.infoNce(z, c);
      ModuleOutput([nce.loss], [nce.accuracy], z)
  }

  /** The two branches of `forward` meet at the boundary: predicting
      distributions with KL weight 0 and both draws zero is the same as not
      predicting them. */
  lemma DistributionPathDegeneratesToMeanPath(kldWeight: real, enc: Distribution, n: Numerics)
    requires Matching(enc) && enc.mu.shape.batch > 0 && enc.mu.shape.rows > 0
    ensures var zero := Filled(Shape(enc.mu.shape.batch, enc.mu.shape.cols, enc.mu.shape.rows), 0.0);
            Forward(ModuleConfig(true, 0.0), enc, Noise(zero, zero), n) ==
            Forward(ModuleConfig(false, kldWeight), enc, Noise(zero, zero), n)
  {
    var params := LatentParams(enc).0;
    ZeroNoiseGivesMean(params, n.exp);
  }

  /** For a standard-normal encoder output the KL regulariser adds nothing,
      whatever its weight: the loss is the contrastive loss of the two draws. */
  lemma StandardNormalForwardLoss(cfg: ModuleConfig, s: Shape, noise: Noise, n: Numerics)
    requires cfg.predictDistributions && ExpAtZero(n)
    requires s.batch > 0 && s.rows > 0
    requires noise.context.shape == Shape(s.batch, s.cols, s.rows) && noise.target.shape == noise.context.shape
    ensures var enc := Distribution(Filled(s, 0.0), Filled(s, 0.0));
            var params := LatentParams(enc).0;
            Forward(cfg, enc, noise, n).loss ==
              [n.infoNce(Reparameterize(params, noise.target, n.exp), Reparameterize(params, noise.context, n.exp)).loss]
  {
    var enc := Distribution(Filled(s, 0.0), Filled(s, 0.0));
    var params := LatentParams(enc).0;
    SwapLastAxesFilled(s, 0.0);
    StandardNormalHasZeroKld(params.mu.shape, n.exp);
  }

  /** `get_latents` and `forward` hand on the same representation when
      `get_latents`' draw is `forward`'s target draw. */
  lemma GetLatentsMatchesForward(cfg: ModuleConfig, enc: Distribution, noise: Noise, n: Numerics)
    requires ForwardInputs(cfg, enc, noise)
    ensures GetLatents(cfg, enc, noise.target, n.exp).0 == Forward(cfg, enc, noise, n).representation
  {
  }
}
