/**
 * The sampler policy of `imagine_cmd`: image-to-image generation needs the
 * `ddim` sampler, so a truthy init image overrides whatever sampler was asked
 * for, with an INFO line to the logger when the choice actually changes.
 */
module Sampler {
  import opened Wrappers

  /** The one sampler that supports an initialisation image. */
  const Img2ImgSampler: string := "ddim"

  /** Python truthiness of the `--init-image` value: `None` and `""` are false. */
  predicate HasInitImage(init: Option<string>) {
    init.Some? && init.value != ""
  }

  /** The sampler every job of the invocation is built with. */
  function ResolveSampler(requested: string, init: Option<string>): (r: string)
    ensures HasInitImage(init) ==> r == Img2ImgSampler
    ensures !HasInitImage(init) ==> r == requested
  {
    if HasInitImage(init) && requested != Img2ImgSampler then Img2ImgSampler else requested
  }

  /**
   * Whether the "Sampler type switched to ddim for img2img" line is sent to
   * the package logger at INFO (it reaches the output only when that logger's
   * level lets INFO through).
   */
  predicate SwitchNotice(requested: string, init: Option<string>) {
    HasInitImage(init) && requested != Img2ImgSampler
  }

  /** The INFO notice is emitted exactly when the effective sampler differs from the request. */
  lemma SwitchNoticeIffChanged(requested: string, init: Option<string>)
    ensures SwitchNotice(requested, init) <==> ResolveSampler(requested, init) != requested
  {
  }

  /** Resolving an already resolved sampler changes nothing. */
  lemma ResolveSamplerIdempotent(requested: string, init: Option<string>)
    ensures ResolveSampler(ResolveSampler(requested, init), init) == ResolveSampler(requested, init)
  {
  }

  /** The effective sampler is always either the request or `ddim`. */
  lemma ResolveSamplerRange(requested: string, init: Option<string>)
    ensures ResolveSampler(requested, init) in {requested, Img2ImgSampler}
  {
  }
}
