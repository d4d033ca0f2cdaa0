/** The chat data model of types.ts. */
module Types {
  import opened Wrappers

  /** Who produced a message; sent to the provider as 'user' or 'model'. */
  datatype Role = User | Model

  /** A file attached to a turn; `data` is its base64 payload. */
  datatype Attachment = Attachment(mimeType: string, data: string, name: string)

  /** One transcript entry. `attachments` is optional (the placeholder has none);
      an absent `isError` behaves as false, so it is a plain flag here. The
      timestamp is a Date.now() reading in milliseconds. */
  datatype Message = Message(
    id: string,
    role: Role,
    text: string,
    attachments: Option<seq<Attachment>>,
    timestamp: nat,
    isError: bool)
  {
    /** `m.attachments || []` */
    function AttachmentList(): (r: seq<Attachment>)
      ensures attachments.Some? ==> r == attachments.value
      ensures attachments.None? ==> r == []
    {
      attachments.GetOr([])
    }
  }

  /** Sampling parameters. The floating-point values are only passed through,
      so they are modelled as reals. */
  datatype GenerationConfig = GenerationConfig(
    temperature: real,
    topK: int,
    topP: real,
    systemInstruction: Option<string>)

  /** A thrown error. A message of "" stands for an absent or empty message,
      which the source treats alike. */
  datatype Error = Error(message: string)
}
