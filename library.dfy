/** The pieces of the .NET library whose behaviour depends on the culture or on
    parsers outside the program; the model takes them as given total functions. */
module Library {
  import opened Wrappers
  import opened JsonTree

  datatype Platform = Platform(
    /** decimal.TryParse in the current culture: None when it returns false. */
    parseDecimal: string -> Option<real>,
    /** decimal.ToString in the current culture, as used by string interpolation. */
    formatDecimal: real -> string,
    /** JsonNode.ToString of an array or an object (its JSON text). */
    serialize: Json -> string,
    /** string.Normalize(NormalizationForm.FormC), which the MailMessage.Subject
        setter applies to the text it stores. */
    normalizeC: string -> string,
    /** new MailAddress(s): None when the constructor throws, else the address. */
    mailAddress: string -> Option<string>,
    /** MailAddressCollection.Add(s), which takes a comma-separated list:
        None when it throws, else the addresses added. */
    addressList: string -> Option<seq<string>>)
}
