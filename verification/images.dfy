/**
 * How the command line turns an image argument into an image source.
 *
 * The only test the program applies is whether the text starts with the four
 * characters `http`; it does not check that the rest is a well-formed URL.
 * A reference is either a lazy URL source, a lazy file-path source, or the raw
 * string left as it was supplied (what `imagine_cmd` does with a non-URL init
 * image).
 */
module Images {
  import opened Wrappers

  const HttpPrefix: string := "http"

  datatype ImageRef =
    | Url(url: string)          // LazyLoadingImage(url=...)
    | FilePath(path: string)    // LazyLoadingImage(filepath=...)
    | Raw(text: string)         // the argument string, not wrapped at all

  /** Python's `s.startswith("http")`. */
  predicate HasHttpPrefix(s: string) {
    |s| >= |HttpPrefix| && s[..|HttpPrefix|] == HttpPrefix
  }

  /** The text the reference was built from. */
  function SourceText(ref: ImageRef): string {
    match ref
    case Url(u) => u
    case FilePath(p) => p
    case Raw(t) => t
  }

  /**
   * `imagine_cmd`'s treatment of `--init-image`: a (truthy) value starting
   * with `http` becomes a URL source; `None`, the empty string and every other
   * value are left untouched. No file-path source is ever built here.
   */
  function ClassifyInit(init: Option<string>): (r: Option<ImageRef>)
    ensures r.None? <==> init.None?
    ensures init.Some? ==> SourceText(r.value) == init.value
    ensures init.Some? ==> (r.value.Url? <==> HasHttpPrefix(init.value))
    ensures init.Some? ==> (r.value.Raw? <==> !HasHttpPrefix(init.value))
  {
    match init
    case None => None
    case Some(s) => if s != [] && HasHttpPrefix(s) then Some(Url(s)) else Some(Raw(s))
  }

  /**
   * `describe`'s treatment of each argument: a URL source when it starts with
   * `http`, a file-path source otherwise. The raw string is never kept.
   */
  function ClassifyDescribe(p: string): (r: ImageRef)
    ensures SourceText(r) == p
    ensures r.Url? <==> HasHttpPrefix(p)
    ensures r.FilePath? <==> !HasHttpPrefix(p)
  {
    if HasHttpPrefix(p) then Url(p) else FilePath(p)
  }
}
