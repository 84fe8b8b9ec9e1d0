/**
 * What the schemas need from zod beyond comparisons: its built-in string
 * formats. Their regular expressions belong to the zod library, so every
 * schema takes them as a parameter and holds for whatever they are.
 */
module Zod {

  /** `z.string().uuid()`, `.email()` and `.datetime()`. */
  datatype Formats = Formats(uuid: string -> bool, email: string -> bool, datetime: string -> bool)
}
