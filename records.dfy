/** An optional value: JavaScript's `null`/`undefined` against a present value. */
module Wrappers {

  datatype Option<+T> = None | Some(value: T)
}

/** The values the gallery handles. */
module Records {

  /** One analysed image as held in the gallery: the local display handle
      (`URL.createObjectURL(file)`) and the fields of the analysis response. */
  datatype ImageRecord = ImageRecord(
    url: string,
    title: string,
    prompt: string,
    format: string,
    keywords: seq<string>)

  /** A selected or dropped file. `id` stands for the identity of the browser's
      `File` object, and through it for the bytes that only the analysis oracle
      reads; two files with the same name and type are still two files. The
      component itself looks only at the media type (`file.type`). */
  datatype File = File(id: nat, name: string, mediaType: string)

  /** What analysing one file gives: a record, or a rejected request. */
  datatype Analysis = Analysed(record: ImageRecord) | Failed

  /** The analysis service, as seen from the component: one answer per file. */
  type Analyzer = File -> Analysis
}
