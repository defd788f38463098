/** The tables every component reads: extensions and phone numbers. */
module Directory {
  import opened Wrappers

  /** A row of the extension table; `number` is blank for a device on no line. */
  datatype Extension = Extension(
    key: string, number: string, digits: string, owner: Option<nat>, active: bool, voicemail: bool)

  /** A row of the number table; `inbound` is its own link to an extension, by key or by digits. */
  datatype Number = Number(number: string, owner: Option<nat>, active: bool, inbound: string)
}
