/**
 * The two commands of the command-line tool, with argument parsing done and
 * every back-end call recorded as data instead of performed:
 * `imagine_cmd` produces the logging configuration, the model-loading option,
 * the batch of jobs and the render options handed to the renderer;
 * `describe` produces one caption line per image argument.
 */
module Cmds {
  import opened Wrappers
  import opened Images
  import opened Sampler
  import opened LoggingSetup
  import opened Batch

  /** The parsed arguments of `imagine_cmd`. */
  datatype ImagineArgs = ImagineArgs(
    promptTexts: seq<string>,
    promptStrength: real,
    initImage: Option<string>,
    initImageStrength: real,
    outdir: string,
    repeats: int,
    height: int,
    width: int,
    steps: int,
    seed: Option<int>,
    upscale: bool,
    fixFaces: bool,
    samplerType: string,
    ddimEta: real,
    logLevel: string,
    showWork: seq<string>,
    tile: bool,
    maskImage: Option<string>,
    maskPrompt: Option<string>,
    maskMode: string,
    maskExpansion: int,
    caption: bool)

  /** The keyword arguments of the `imagine_image_files` call. */
  datatype RenderOptions = RenderOptions(
    outdir: string,
    ddimEta: real,
    recordStepImages: bool,
    tileMode: bool,
    outputFileExtension: string,
    printCaption: bool)

  /** Everything one run of `imagine_cmd` decides. */
  datatype Invocation = Invocation(
    logging: LoggingConfig,
    totalImageCount: int,
    samplerSwitched: bool,
    loadModelTileMode: bool,
    prompts: seq<PromptSpec>,
    render: RenderOptions)

  /** `"images" in show_work`: step images are kept iff `images` was asked for. */
  function RecordStepImages(showWork: seq<string>): bool {
    "images" in showWork
  }

  /** The count `imagine_cmd` announces in its first log line. */
  function TotalImageCount(promptCount: nat, repeats: int): int {
    promptCount * repeats
  }

  /**
   * The parameters every job of the invocation shares: the resolved sampler,
   * the classified init image, and every other option copied as given.
   */
  function SharedParams(args: ImagineArgs): (p: JobParams)
    ensures p.samplerType == ResolveSampler(args.samplerType, args.initImage)
    ensures p.initImage == ClassifyInit(args.initImage)
    ensures p.seed == args.seed && p.maskImage == args.maskImage
    ensures p.promptStrength == args.promptStrength && p.initImageStrength == args.initImageStrength
    ensures p.steps == args.steps && p.height == args.height && p.width == args.width
    ensures p.maskPrompt == args.maskPrompt && p.maskExpansion == args.maskExpansion && p.maskMode == args.maskMode
    ensures p.upscale == args.upscale && p.fixFaces == args.fixFaces
  {
    JobParams(
      args.promptStrength,
      ClassifyInit(args.initImage),
      args.initImageStrength,
      args.seed,
      ResolveSampler(args.samplerType, args.initImage),
      args.steps,
      args.height,
      args.width,
      args.maskImage,
      args.maskPrompt,
      args.maskExpansion,
      args.maskMode,
      args.upscale,
      args.fixFaces)
  }

  /**
   * One run of `imagine_cmd`: the batch holds `N * repeats` jobs (the count
   * the first log line announces, for a non-negative `repeats`), every job
   * carrying the shared parameters; the switch notice is sent to the logger
   * at INFO exactly when the sampler changes; the logging configuration is
   * the one for the requested level; the renderer receives the output
   * directory, `ddim_eta` and the caption flag as given, `png` as the file
   * extension, and records step images iff `images` is among the `show_work`
   * choices; the model is loaded in the same tile mode the renderer is given.
   */
  function ImagineCmd(args: ImagineArgs): (inv: Invocation)
    ensures |inv.prompts| == |args.promptTexts| * RepeatCount(args.repeats)
    ensures args.repeats >= 0 ==> |inv.prompts| == inv.totalImageCount
    ensures forall k :: 0 <= k < |inv.prompts| ==> inv.prompts[k].params == SharedParams(args)
    ensures inv.samplerSwitched <==> ResolveSampler(args.samplerType, args.initImage) != args.samplerType
    ensures inv.render.recordStepImages <==> "images" in args.showWork
    ensures inv.render.outdir == args.outdir && inv.render.ddimEta == args.ddimEta
    ensures inv.render.outputFileExtension == "png" && inv.render.printCaption == args.caption
    ensures inv.logging == ConfigureLogging(args.logLevel)
    ensures inv.loadModelTileMode == inv.render.tileMode == args.tile
    ensures inv.logging.format == VerboseFormat <==> args.logLevel == "DEBUG"
    ensures LevelOf(inv.logging.loggers, PackageLogger) == Some(args.logLevel)
    ensures LevelOf(inv.logging.loggers, RootLogger) == Some("WARNING")
  {
    SwitchNoticeIffChanged(args.samplerType, args.initImage);
    Invocation(
      ConfigureLogging(args.logLevel),
      TotalImageCount(|args.promptTexts|, args.repeats),
      SwitchNotice(args.samplerType, args.initImage),
      args.tile,
      Expand(args.promptTexts, args.repeats, SharedParams(args)),
      RenderOptions(args.outdir, args.ddimEta, RecordStepImages(args.showWork), args.tile, "png", args.caption))
  }

  /**
   * Job `k` of an `imagine_cmd` run: prompt text `k % N`, the seed exactly as
   * given (`None` stays `None`), `ddim` whenever there is an init image and the
   * requested sampler otherwise, a URL init image wrapped and any other left
   * as it was, the mask image passed on unclassified, and every other option
   * copied unchanged.
   */
  lemma ImagineJob(args: ImagineArgs, k: int)
    requires 0 <= k < |ImagineCmd(args).prompts|
    ensures var job := ImagineCmd(args).prompts[k];
      && job.promptText == args.promptTexts[k % |args.promptTexts|]
      && job.params == SharedParams(args)
      && job.params.seed == args.seed
      && job.params.promptStrength == args.promptStrength
      && job.params.initImageStrength == args.initImageStrength
      && job.params.steps == args.steps
      && job.params.height == args.height
      && job.params.width == args.width
      && job.params.maskPrompt == args.maskPrompt
      && job.params.maskExpansion == args.maskExpansion
      && job.params.maskMode == args.maskMode
      && job.params.upscale == args.upscale
      && job.params.fixFaces == args.fixFaces
      && job.params.maskImage == args.maskImage
      && (args.initImage.None? ==> job.params.initImage.None?)
      && (args.initImage.Some? ==> job.params.initImage.Some?
                                   && SourceText(job.params.initImage.value) == args.initImage.value
                                   && (job.params.initImage.value.Url? <==> HasHttpPrefix(args.initImage.value)))
      && (HasInitImage(args.initImage) ==> job.params.samplerType == Img2ImgSampler)
      && (!HasInitImage(args.initImage) ==> job.params.samplerType == args.samplerType)
  {
    ExpandAt(args.promptTexts, args.repeats, SharedParams(args), k);
  }

  /** The announced count is negative, not the (empty) batch size, when `repeats` is negative. */
  lemma TotalImageCountNegativeRepeats(args: ImagineArgs)
    requires args.repeats < 0 && args.promptTexts != []
    ensures ImagineCmd(args).prompts == []
    ensures ImagineCmd(args).totalImageCount == |args.promptTexts| * args.repeats
    ensures ImagineCmd(args).totalImageCount < 0
  {
  }

  /**
   * `describe`: each argument becomes a URL source or a file-path source,
   * then one caption per image is printed, in argument order. The captioning
   * model is the parameter `caption`.
   */
  method Describe(imageArgs: seq<string>, caption: ImageRef -> string) returns (imgs: seq<ImageRef>, lines: seq<string>)
    ensures |imgs| == |imageArgs| && |lines| == |imageArgs|
    ensures forall i :: 0 <= i < |imageArgs| ==> imgs[i] == ClassifyDescribe(imageArgs[i])
    ensures forall i :: 0 <= i < |imageArgs| ==> (imgs[i].Url? <==> HasHttpPrefix(imageArgs[i]))
    ensures forall i :: 0 <= i < |imageArgs| ==> lines[i] == caption(imgs[i])
  {
    imgs := [];
    for i := 0 to |imageArgs|
      invariant |imgs| == i
      invariant forall t :: 0 <= t < i ==> imgs[t] == ClassifyDescribe(imageArgs[t])
    {
      var p := imageArgs[i];
      var img := if HasHttpPrefix(p) then Url(p) else FilePath(p);
      imgs := imgs + [img];
    }
    lines := [];
    for i := 0 to |imgs|
      invariant |lines| == i
      invariant forall t :: 0 <= t < i ==> lines[t] == caption(imgs[t])
    {
      lines := lines + [caption(imgs[i])];
    }
  }
}
