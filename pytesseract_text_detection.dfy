/**
 * The tesseract page-text Lambda: the shared text-detection handler with
 * `pytesseract.image_to_string` as the engine and `.tesseract` as the extension of
 * the text file.
 */
module TesseractText {
  import opened Strings
  import opened RenderPages
  import OcrHandler
  import DetectPageText

  const Extension: string := ".tesseract"

  /** `INPUT_QUEUE` together with the constants of this Lambda. */
  function SettingsFor(queue: string): OcrHandler.Settings
  {
    OcrHandler.Settings(queue, Extension, "pytesseract")
  }

  /**
   * The text of page `n` is stored as `{owner}/{upload}/pages/{n}.tesseract`, beside the
   * page image and never over it, and never over the Textract output for the same page.
   */
  lemma TextBesidePage(owner: string, uploadId: string, n: nat)
    ensures OcrHandler.OutputKey(PageKey(owner, uploadId, n), Extension)
         == owner + "/" + uploadId + "/pages/" + NatToString(n) + ".tesseract"
    ensures OcrHandler.OutputKey(PageKey(owner, uploadId, n), Extension) != PageKey(owner, uploadId, n)
    ensures OcrHandler.OutputKey(PageKey(owner, uploadId, n), Extension)
         != OcrHandler.OutputKey(PageKey(owner, uploadId, n), DetectPageText.Extension)
  {
    OcrHandler.OutputKeyOfPage(owner, uploadId, n, Extension);
    OcrHandler.OutputKeyIsNotPageKey(owner, uploadId, n, Extension);
    DetectPageText.TextBesidePage(owner, uploadId, n);
  }

  /** `lambda_handler`. */
  method LambdaHandler(cloud: Aws.Cloud, queue: string, ocr: OcrHandler.Recogniser, records: seq<OcrHandler.OcrRecord>)
    returns (response: RecordLoop.Response)
    modifies cloud
    ensures (cloud.State(), response) == OcrHandler.Handler(old(cloud.State()), SettingsFor(queue), ocr, records)
  {
    response := OcrHandler.LambdaHandler(cloud, SettingsFor(queue), ocr, records);
  }
}
