/** The `/api/dain/image` handler: the image card a DAIN agent displays,
    with its defaulting rules.  Whether the file exists is an input. */
module Dain {
  import opened Values
  import opened Http

  const DefaultDescription: string := "Image from server"
  const DefaultAspectRatio: string := "wide"

  /** The `image` part of the response, without the URL and the full path. */
  datatype ImageCard = ImageCard(filename: string, title: string, description: string, aspectRatio: string)

  /** The query parameter `aspectRatio` after destructuring with default
      `'wide'`: the default applies only when the parameter is absent. */
  function AspectRatioParam(aspectRatio: Option<string>): (r: string)
    ensures aspectRatio.Some? ==> r == aspectRatio.value
    ensures aspectRatio.None? ==> r == DefaultAspectRatio
  {
    match aspectRatio
    case None => DefaultAspectRatio
    case Some(a) => a
  }

  /** The handler, given the query parameters and whether `fs.access` finds
      the file.  A missing or empty filename is rejected before the file
      system is consulted. */
  function DainImage(filename: Option<string>, aspectRatio: Option<string>,
                     title: Option<string>, description: Option<string>, fileExists: bool)
    : (r: Response<ImageCard>)
    ensures r.BadRequest? <==> !PresentString(filename)
    ensures r.NotFound? <==> PresentString(filename) && !fileExists
    ensures r.Ok? <==> PresentString(filename) && fileExists
    ensures r.Ok? ==> r.code == 200 && r.body.filename == filename.value
    ensures r.Ok? ==> r.body.title != "" && r.body.description != "" && r.body.aspectRatio != ""
    ensures r.Ok? ==> r.body.title == (if PresentString(title) then title.value else filename.value)
    ensures r.Ok? ==>
              r.body.description == (if PresentString(description) then description.value else DefaultDescription)
    ensures r.Ok? ==>
              r.body.aspectRatio == (if PresentString(aspectRatio) then aspectRatio.value else DefaultAspectRatio)
  {
    if !PresentString(filename) then BadRequest("Missing required parameter: filename")
    else if !fileExists then NotFound("Image not found")
    else
      var ratio := AspectRatioParam(aspectRatio);
      Ok(200, ImageCard(filename.value,
                        OrString(title, filename.value),
                        OrString(description, DefaultDescription),
                        if ratio != "" then ratio else DefaultAspectRatio))
  }

  /** The destructuring default for `aspectRatio` is subsumed by the later
      `|| 'wide'`: an absent and an empty parameter give the same card. */
  lemma AspectRatioDefaultRedundant(filename: Option<string>, title: Option<string>,
                                    description: Option<string>, fileExists: bool)
    ensures DainImage(filename, None, title, description, fileExists) ==
            DainImage(filename, Some(""), title, description, fileExists)
  {
  }
}
