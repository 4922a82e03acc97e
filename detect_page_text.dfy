/**
 * The Textract page-text Lambda: the shared text-detection handler with Amazon
 * Textract as the engine (the image is re-encoded as PNG, analysed for tables and
 * forms, and rendered as markdown) and `.textract` as the extension of the text file.
 */
module DetectPageText {
  import opened Strings
  import opened RenderPages
  import OcrHandler

  const Extension: string := ".textract"

  /** `INPUT_QUEUE` together with the constants of this Lambda. */
  function SettingsFor(queue: string): OcrHandler.Settings
  {
    OcrHandler.Settings(queue, Extension, "textract")
  }

  /** The markdown of page `n` is stored as `{owner}/{upload}/pages/{n}.textract`, beside the page image and never over it. */
  lemma TextBesidePage(owner: string, uploadId: string, n: nat)
    ensures OcrHandler.OutputKey(PageKey(owner, uploadId, n), Extension)
         == owner + "/" + uploadId + "/pages/" + NatToString(n) + ".textract"
    ensures OcrHandler.OutputKey(PageKey(owner, uploadId, n), Extension) != PageKey(owner, uploadId, n)
  {
    OcrHandler.OutputKeyOfPage(owner, uploadId, n, Extension);
    OcrHandler.OutputKeyIsNotPageKey(owner, uploadId, n, Extension);
  }

  /** `lambda_handler`. */
  method LambdaHandler(cloud: Aws.Cloud, queue: string, ocr: OcrHandler.Recogniser, records: seq<OcrHandler.OcrRecord>)
    returns (response: RecordLoop.Response)
    modifies cloud
    ensures (cloud.State(), response) == OcrHandler.Handler(old(cloud.State()), SettingsFor(queue), ocr, records)
  {
    response := OcrHandler.LambdaHandler(cloud, SettingsFor(queue), ocr, records);
  }
}
