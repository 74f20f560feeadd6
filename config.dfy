/** The settings record read from appsettings.json (Program.cs, class AppConfig). */
module Config {
  import opened Wrappers

  /** Every string property is nullable in the source; a property absent from the
      file stays null (None) and SmtpPort defaults to 0. */
  datatype AppConfig = AppConfig(
    emailDestino: Option<string>,
    smtpHost: Option<string>,
    smtpPort: int,
    smtpUser: Option<string>,
    smtpPass: Option<string>)
}
