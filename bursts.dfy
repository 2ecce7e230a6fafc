/** The records the burst aggregator keeps per WhatsApp sender. */
module Bursts {
  import opened Text
  import opened Dicts

  /** What a channel hands to the aggregator as one fragment: a text (None
      stands for Python's None), or the dict an OCR step returns. In the OCR
      dict, `message` is None when the key is missing or null, `success`
      defaults to True and `context` is None when `ocr_context` is missing. */
  datatype Fragment =
    | Text(text: Option<string>)
    | OcrReply(message: Option<string>, success: bool, context: Option<string>)

  /** One entry of `listed_buffer`. `message` is None where the source stores
      the `False` it uses for a missing OCR context. */
  datatype ListedPayload = ListedPayload(
    message: Option<string>,
    msgType: string,
    mediaUrl: Option<string>,
    ocrContext: Option<string>,
    ocrSuccess: bool)

  /** The state stored under `whatsapp_buffer:<user>`. A state that has never
      failed has `failure == false` and no context. */
  datatype BurstState = BurstState(
    buffer: string,
    bufferTs: string,
    listed: Dict<string, ListedPayload>,
    failure: bool,
    failureContext: Option<string>)

  /** The empty dict the aggregator starts from. */
  const EmptyBurst := BurstState("", "", [], false, None)
}
