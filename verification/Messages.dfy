/** The shapes of the messages on the queues, and the keys of archived payloads. */
module Messages {
  import opened Collections
  import opened Models

  datatype ObjectKey = RawKey(bucket: string, urlId: Digest)

  function RawObjectKey(bucket: string, urlId: Digest): ObjectKey {
    RawKey(if bucket == "" then "unknown" else bucket, urlId)
  }

  /** The claim check: where the payload of a scraped URL is, and how the scrape went. */
  datatype Pointer = Pointer(jobId: string, key: ObjectKey, url: string, bucket: string, status: Status)

  /** What a queue carries: one URL to scrape, a pointer to what was scraped, or any other dictionary. */
  datatype Payload =
    | JobPayload(jobId: string, url: string, bucket: Option<string>)
    | PointerPayload(pointer: Pointer)
    | OtherPayload(text: string)
}
