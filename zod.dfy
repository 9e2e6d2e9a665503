/**
 * The vocabulary of the validation library: issue paths, issue messages, and the
 * behaviour of code this model cannot see, passed in as a value.
 */
module Zod {

  /** One step of an issue path: an object key, or an array position. */
  datatype Segment = Key(name: string) | Index(position: nat)

  type Path = seq<Segment>

  /** The library's built-in checks whose message text is the library's own. */
  datatype LibraryCode =
    | Required                 // a required key is absent
    | InvalidEmail             // `.email()`
    | InvalidUrl               // `.url()`
    | TooShort(minLength: nat) // `.min(n)` on a string
    | TooSmall(minimum: int)   // `.min(n)` on a number
    | TooBig(maximum: int)     // `.max(n)` on a number
    | InvalidEnumValue         // `z.enum([...])` without a message of its own
    | InvalidDiscriminator     // `z.discriminatedUnion` met a tag it does not know

  /** A message the schema spells out, or one the library supplies. */
  datatype IssueMessage = Custom(text: string) | Library(code: LibraryCode)

  datatype Issue = Issue(path: Path, message: IssueMessage)

  /**
   * Foreign behaviour: whether the WHATWG URL parser (`new URL(s)`, which is also
   * what `.url()` runs) accepts `s`, whether the library's e-mail pattern accepts `s`,
   * and the library's text for each built-in message.
   */
  datatype Foreign = Foreign(
    parsesAsUrl: string -> bool,
    isEmail: string -> bool,
    libraryText: LibraryCode -> string)
}
