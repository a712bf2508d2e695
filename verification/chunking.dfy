/** The chunk normaliser (chunking.py): turns the partitioner's typed elements
    into uniform records. Images and tables can be rewritten by an external
    description model, which is an oracle here; text keeps only composite
    elements. */
module Chunking {
  import opened Wrappers
  import opened Errors
  import Seqs

  /** The partitioner's element classes the normaliser distinguishes. */
  datatype Category =
    | ImageElement
    | FigureCaptionElement
    | TableElement
    | CompositeElement
    | OtherElement

  datatype Metadata = Metadata(
    filename: Option<string>,
    imageBase64: Option<string>,
    textAsHtml: Option<string>)

  datatype Element = Element(category: Category, text: string, metadata: Metadata)

  predicate IsImage(e: Element) { e.category == ImageElement }
  predicate IsFigureCaption(e: Element) { e.category == FigureCaptionElement }
  predicate IsTable(e: Element) { e.category == TableElement }
  predicate IsComposite(e: Element) { e.category == CompositeElement }

  /** The kind-specific fields a record carries beside its content. */
  datatype Kind =
    | ImageKind(caption: string, imageText: string, imageBase64: Option<string>)
    | TableKind(tableAsHtml: Option<string>, tableText: string)
    | TextKind

  /** One normalised record: the dictionary the source builds per element. */
  datatype Record = Record(content: string, kind: Kind, filename: Option<string>) {

    /** The record's `content_type` field. */
    function ContentType(): string {
      match kind
      case ImageKind(_, _, _) => "image"
      case TableKind(_, _) => "table"
      case TextKind => "text"
    }
  }

  /** Whether the description model is used, and the API key the environment holds. */
  datatype Config = Config(useGemini: bool, apiKey: Option<string>)

  /** Python's `not api_key`: an absent or empty key counts as missing. */
  predicate HasApiKey(cfg: Config) {
    cfg.apiKey.Some? && cfg.apiKey.value != ""
  }

  /** What the description model is asked about. */
  datatype Prompt =
    | ImagePrompt(caption: string, imageText: string, imageBase64: Option<string>)
    | TablePrompt(tableAsHtml: Option<string>)

  /** The description model: the generated text, or `None` when the call raises. */
  type Describer = Prompt -> Option<string>

  const NoCaption: string := "No caption"

  /** The caption of the image at position `i`. */
  function CaptionAt(elems: seq<Element>, i: nat): string
    requires i < |elems|
  {
    if i + 1 < |elems| && IsFigureCaption(elems[i + 1]) && elems[i + 1].text != ""
    then elems[i + 1].text
    else NoCaption
  }

  /** The record built for the image at position `i` before any description. */
  function ImageRecordAt(elems: seq<Element>, i: nat): Record
    requires i < |elems|
  {
    var e := elems[i];
    Record(e.text, ImageKind(CaptionAt(elems, i), e.text, e.metadata.imageBase64), e.metadata.filename)
  }

  /** The record built for a table element before any description. */
  function TableRecordOf(e: Element): Record {
    Record(e.text, TableKind(e.metadata.textAsHtml, e.text), e.metadata.filename)
  }

  /** The record built for a composite text element. */
  function TextRecordOf(e: Element): Record {
    Record(e.text, TextKind, e.metadata.filename)
  }

  /** The image records of the first `n` elements, one per image in order.
      The caption look-up may read the element just past the prefix. */
  function ImagesUpTo(elems: seq<Element>, n: nat): (r: seq<Record>)
    requires n <= |elems|
    ensures var P := Seqs.Positions(IsImage, elems[..n]);
      && |r| == |P|
      && forall k :: 0 <= k < |r| ==> P[k] < |elems| && r[k] == ImageRecordAt(elems, P[k])
  {
    if n == 0 then []
    else
      var init := ImagesUpTo(elems, n - 1);
      Seqs.PositionsExtend(IsImage, elems, n);
      if IsImage(elems[n - 1]) then init + [ImageRecordAt(elems, n - 1)] else init
  }

  /** One record per image element, in input order; other elements produce
      nothing. Content is the image's own text, the content type is "image",
      and the caption is the next element's text when that element exists, is
      a figure caption and has non-empty text, and "No caption" otherwise. */
  function ImageRecords(elems: seq<Element>): (r: seq<Record>)
    ensures var P := Seqs.Positions(IsImage, elems);
      && |r| == |P|
      && forall k :: 0 <= k < |r| ==>
           var i := P[k];
           && i < |elems|
           && IsImage(elems[i])
           && r[k].content == elems[i].text
           && r[k].ContentType() == "image"
           && r[k].filename == elems[i].metadata.filename
           && r[k].kind.imageText == elems[i].text
           && r[k].kind.imageBase64 == elems[i].metadata.imageBase64
           && r[k].kind.caption ==
                (if i + 1 < |elems| && IsFigureCaption(elems[i + 1]) && elems[i + 1].text != ""
                 then elems[i + 1].text
                 else NoCaption)
  {
    assert elems[..|elems|] == elems;
    ImagesUpTo(elems, |elems|)
  }

  /** One record per table element, in input order; content is the table's
      plain text and the content type is "table". */
  function TableRecords(elems: seq<Element>): (r: seq<Record>)
    ensures var P := Seqs.Positions(IsTable, elems);
      && |r| == |P|
      && forall k :: 0 <= k < |r| ==>
           var e := elems[P[k]];
           && IsTable(e)
           && r[k].content == e.text
           && r[k].ContentType() == "table"
           && r[k].filename == e.metadata.filename
           && r[k].kind == TableKind(e.metadata.textAsHtml, e.text)
  {
    Seqs.FilterMap(IsTable, TableRecordOf, elems)
  }

  /** `create_semantic_chunks`: exactly the composite elements, in order, each
      with content type "text" and content equal to the element's text. */
  function SemanticChunks(elems: seq<Element>): (r: seq<Record>)
    ensures var P := Seqs.Positions(IsComposite, elems);
      && |r| == |P|
      && forall k :: 0 <= k < |r| ==>
           var e := elems[P[k]];
           && IsComposite(e)
           && r[k] == Record(e.text, TextKind, e.metadata.filename)
           && r[k].ContentType() == "text"
  {
    Seqs.FilterMap(IsComposite, TextRecordOf, elems)
  }

  /** Images and tables are the records a description model can rewrite. */
  predicate Describable(r: Record) { !r.kind.TextKind? }

  /** The prompt sent for a record: caption, text and payload for an image,
      the HTML rendering for a table. */
  function PromptFor(r: Record): Prompt
    requires Describable(r)
  {
    match r.kind
    case ImageKind(caption, imageText, payload) => ImagePrompt(caption, imageText, payload)
    case TableKind(html, _) => TablePrompt(html)
  }

  /** The records after the description step: unchanged when the model is off;
      otherwise every content is replaced by the model's text, and the first
      failing call aborts the whole step. */
  function Describe(useGemini: bool, describe: Describer, records: seq<Record>): (r: Result<seq<Record>, Error>)
    requires forall j :: 0 <= j < |records| ==> Describable(records[j])
    ensures r.Success? <==>
              (!useGemini || forall j :: 0 <= j < |records| ==> describe(PromptFor(records[j])).Some?)
    ensures r.Failure? ==> r.error == DescriptionFailed
    ensures r.Success? ==>
              && |r.value| == |records|
              && forall j :: 0 <= j < |records| ==>
                   && r.value[j].kind == records[j].kind
                   && r.value[j].filename == records[j].filename
                   && r.value[j].content ==
                        (if useGemini then describe(PromptFor(records[j])).value else records[j].content)
  {
    if !useGemini || records == [] then Success(records)
    else
      var last := records[|records| - 1];
      match Describe(useGemini, describe, records[..|records| - 1])
      case Failure(e) => Failure(e)
      case Success(init) =>
        match describe(PromptFor(last))
        case None => Failure(DescriptionFailed)
        case Some(text) => Success(init + [last.(content := text)])
  }

  /** `process_images_with_caption`. With the describer on and no API key it
      fails before producing anything; with it off it returns the image
      records unchanged; with it on, it succeeds exactly when every image's
      description does, and each image's content becomes the model's
      description of it. */
  function ProcessImagesWithCaption(elems: seq<Element>, cfg: Config, describe: Describer)
    : (r: Result<seq<Record>, Error>)
    ensures cfg.useGemini && !HasApiKey(cfg) ==> r == Failure(MissingApiKey)
    ensures !cfg.useGemini ==> r == Success(ImageRecords(elems))
    ensures cfg.useGemini && HasApiKey(cfg) ==>
              (r.Success? <==> forall k :: 0 <= k < |ImageRecords(elems)| ==>
                                 describe(PromptFor(ImageRecords(elems)[k])).Some?)
    ensures r.Failure? ==> r.error in {MissingApiKey, DescriptionFailed}
    ensures cfg.useGemini && HasApiKey(cfg) && r.Failure? ==> r.error == DescriptionFailed
    ensures r.Success? ==>
              var base := ImageRecords(elems);
              && |r.value| == |base|
              && forall k :: 0 <= k < |base| ==>
                   && r.value[k].kind == base[k].kind
                   && r.value[k].ContentType() == "image"
                   && r.value[k].filename == base[k].filename
                   && (cfg.useGemini ==>
                         describe(PromptFor(base[k])).Some? &&
                         r.value[k].content == describe(PromptFor(base[k])).value)
  {
    if cfg.useGemini && !HasApiKey(cfg) then Failure(MissingApiKey)
    else Describe(cfg.useGemini, describe, ImageRecords(elems))
  }

  /** `process_tables_with_description`: the same shape as the image step,
      over table records, with the table's HTML as the prompt. */
  function ProcessTablesWithDescription(elems: seq<Element>, cfg: Config, describe: Describer)
    : (r: Result<seq<Record>, Error>)
    ensures cfg.useGemini && !HasApiKey(cfg) ==> r == Failure(MissingApiKey)
    ensures !cfg.useGemini ==> r == Success(TableRecords(elems))
    ensures cfg.useGemini && HasApiKey(cfg) ==>
              (r.Success? <==> forall k :: 0 <= k < |TableRecords(elems)| ==>
                                 describe(TablePrompt(TableRecords(elems)[k].kind.tableAsHtml)).Some?)
    ensures r.Failure? ==> r.error in {MissingApiKey, DescriptionFailed}
    ensures cfg.useGemini && HasApiKey(cfg) && r.Failure? ==> r.error == DescriptionFailed
    ensures r.Success? ==>
              var base := TableRecords(elems);
              && |r.value| == |base|
              && forall k :: 0 <= k < |base| ==>
                   && r.value[k].kind == base[k].kind
                   && r.value[k].ContentType() == "table"
                   && r.value[k].filename == base[k].filename
                   && (cfg.useGemini ==>
                         describe(TablePrompt(base[k].kind.tableAsHtml)).Some? &&
                         r.value[k].content == describe(TablePrompt(base[k].kind.tableAsHtml)).value)
  {
    if cfg.useGemini && !HasApiKey(cfg) then Failure(MissingApiKey)
    else Describe(cfg.useGemini, describe, TableRecords(elems))
  }
}
