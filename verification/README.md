# imaginAIry command-line job construction, in Dafny

This project models the decision logic of `imaginairy/cmds.py`, the
command-line layer of imaginAIry, a text/image-to-image generation tool.
Argument parsing and the rendering, captioning and model-loading back-ends
are not modelled. What remains is pure:

- **Sampler policy** (`Sampler`). A truthy `--init-image` forces the `ddim`
  sampler. Otherwise the requested sampler passes through unchanged. The
  "switched to ddim" notice goes to the package logger at INFO exactly when
  the sampler changes; it is shown only when that logger's level lets INFO
  through.
- **Image references** (`Images`). `imagine_cmd` wraps an init image as a lazy
  URL source when it starts with `http`. Any other init image, and the mask
  image, stays the raw string. `describe` turns every argument into either a
  URL source or a file-path source.
- **Batch expansion** (`Batch`). N prompt texts and R repeats become
  `N * max(R, 0)` jobs (`ImaginePrompt`s). The outer loop runs over repeats and the
  inner loop over the prompts in the order given. Every job shares one
  parameter set, and the seed is copied as given, `None` included.
- **Logging configuration** (`LoggingSetup`). The dictionary
  `configure_logging` builds, before it is handed to the logging library.
- **The commands** (`Cmds`). `imagine_cmd` as a function from parsed
  arguments to everything it decides: the logging configuration, the
  announced image count, the switch notice, the model's tile mode, the batch
  and the render options. `describe` as a method that produces one caption
  line per argument, in argument order.

`Wrappers` holds the `Option` type used for Python's `None`.

Behaviour of the code that may be unexpected, modelled as written:

- The code does not reject a non-positive `repeats`. `range(repeats)` is simply
  empty, so the batch is empty.
- In `imagine_cmd`, a non-URL init image is not turned into a file-path source.
  It is passed on as the raw string (`ImageRef.Raw`).
- The mask image is never classified.
- `total_image_count` is `len(prompt_texts) * repeats` as written. For a
  negative `repeats` and a non-empty prompt list, the announced count is
  negative while the batch is empty (`Cmds.TotalImageCountNegativeRepeats`).

## Model

| member | source | states |
|---|---|---|
| Images.ClassifyInit | imaginairy/cmds.py:192-193 | `None` stays `None`. A value is wrapped as a URL source iff it starts with `http`, and left as the raw string otherwise. The original text is always kept. |
| Images.ClassifyDescribe | imaginairy/cmds.py:239-243 | An argument becomes a URL source iff it starts with `http`, and a file-path source otherwise. Its text is kept. |
| Sampler.ResolveSampler | imaginairy/cmds.py:188-189 | With a truthy init image (not `None`, not empty) the sampler is `ddim`. Otherwise it is the requested one. |
| Sampler.SwitchNoticeIffChanged | imaginairy/cmds.py:188-190 | The "switched to ddim" line is sent to the logger at INFO iff the effective sampler differs from the requested one. |
| Sampler.ResolveSamplerIdempotent | imaginairy/cmds.py:188-189 | Applying the sampler policy twice gives the same result as applying it once. |
| Sampler.ResolveSamplerRange | imaginairy/cmds.py:188-189 | The effective sampler is always either the requested one or `ddim`. |
| LoggingSetup.ConfigureLogging | imaginairy/cmds.py:14-46 | Selects the verbose timestamped format iff the level is `DEBUG`, and `%(message)s` otherwise. The `imaginairy` logger gets the requested level, the root logger WARNING and the transformers logger ERROR. No other logger is configured. Every logger uses the one INFO stdout stream handler and none propagates. The dictionary is schema version 1 and disables existing loggers. |
| LoggingSetup.LoggerTable | imaginairy/cmds.py:33-45 | The `loggers` entry configures exactly three names: the root logger at WARNING, `imaginairy` at the requested level and `transformers.modeling_utils` at ERROR. Any other name has no level. |
| LoggingSetup.OnlyPackageLevelVaries | imaginairy/cmds.py:33-45 | Every logger except `imaginairy` has the same level whatever level is requested. |
| Batch.Expand | imaginairy/cmds.py:195-216 | The batch has `N * max(repeats, 0)` jobs, and every job carries the shared parameters unchanged. |
| Batch.ExpandAt | imaginairy/cmds.py:197-198 | Job `k` has prompt text `prompt_texts[k % N]`. |
| Batch.ExpandPosition | imaginairy/cmds.py:197-198 | Job `q * N + j` is prompt `j` of repeat `q`: repeat-major, prompt-minor order. |
| Batch.ExpandFirstRound | imaginairy/cmds.py:197-198 | With at least one repeat, the first N jobs are the prompts in the order given. |
| Batch.ExpandEmpty | imaginairy/cmds.py:197-198 | The batch is empty iff there are no prompt texts or `repeats <= 0`. Neither case is an error. |
| Batch.ExpandHelpExample | imaginairy/cmds.py:74 | Two prompts with three repeats give six jobs, alternating between the two prompts in the order given. |
| Batch.BuildPrompts | imaginairy/cmds.py:195-216 | The nested append loop builds exactly the batch `Expand` describes, of length `N * max(repeats, 0)`. |
| Cmds.SharedParams | imaginairy/cmds.py:199-215 | The shared job parameters use the resolved sampler and the classified init image. Every other option is copied verbatim: seed, mask image, mask prompt, mask mode, mask expansion, both strengths, steps, height, width, upscale and fix-faces. |
| Cmds.ImagineCmd | imaginairy/cmds.py:181-226 | The batch has `N * max(repeats, 0)` jobs. This equals the announced count when `repeats >= 0`. Every job carries the same shared parameters. The switch notice fires iff the sampler changed. The logging configuration is the one for the requested level, so the root logger is at WARNING. The renderer gets the output directory, `ddim_eta` and the caption flag as given, and `png` as the extension. It records step images iff `images` was asked for. The model and the renderer get the same tile mode. |
| Cmds.ImagineJob | imaginairy/cmds.py:188-215 | Job `k` has prompt text `k % N` and the shared parameters. Its seed is exactly as given (`None` stays `None`), and so are its strengths, steps, size, mask prompt, mask mode, mask expansion, upscale and fix-faces. Its mask image is unclassified. Its init image is wrapped only when it is a URL. Its sampler is `ddim` with an init image and the requested one otherwise. |
| Cmds.TotalImageCountNegativeRepeats | imaginairy/cmds.py:184-198 | For a negative `repeats` and at least one prompt, the announced count is `len(prompt_texts) * repeats`, which is negative, while the batch is empty. |
| Cmds.Describe | imaginairy/cmds.py:236-246 | Produces one image source and one caption line per argument, in argument order. Each source is a URL source iff its argument starts with `http`. |

## Left out

- Click argument parsing, defaults and `click.Choice` enforcement. Arguments are taken as already parsed, so sampler names, log levels and mask modes are plain strings.
- The `ctx.invoked_subcommand` early return, the `aimg` group wiring and the `__main__` entry point. These are command-line plumbing.
- `suppress_annoying_logs_and_warnings` and `logging.config.dictConfig`. These change global process state; the model only computes the dictionary passed to `dictConfig`.
- `load_model`. This is a foreign call; only its `tile_mode` argument is recorded.
- `imagine_image_files`. This is a foreign call that renders and writes files. The batch and the keyword arguments it receives are recorded unchanged in `Cmds.Invocation`.
- Exceptions from the foreign calls. `generate_caption`, image loading, `load_model` and `imagine_image_files` are modelled as never raising. The code has no exception handling, so in it the first exception ends the command. In `describe`, only the captions before the failing image are printed. In `imagine_cmd`, a failing `load_model` means `imagine_image_files` is never called.
- `ImaginePrompt`. This constructor from `imaginairy.schema` is not part of this model. A job is a plain record of the arguments passed to it.
- Object identity of the init image. `imagine_cmd` builds one `LazyLoadingImage` and hands that same instance to every job. The model compares jobs by value, so it cannot say that they share one object.
- `generate_caption`. The captioning model is a parameter of `Cmds.Describe`, and `img.copy()` is treated as the same image.
- `LazyLoadingImage` fetching, decoding and caching. Its implementation is not part of this model; only the choice between the URL and the file-path constructor is.
- Float options (`prompt_strength`, `init_image_strength`, `ddim_eta`). These are carried as `real` values with no arithmetic on them.
- The text of the log messages. The model records only whether the sampler-switch line is logged and the count the first line announces.
