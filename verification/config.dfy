/** The clinic profile. It is loaded once at start-up and never changed. */
module Config {

  /** `caption` is the source's `label` (a reserved word in Dafny). */
  datatype CtaButton = CtaButton(caption: string, action: string)

  datatype CtaButtons = CtaButtons(primary: CtaButton, secondary: CtaButton)

  datatype CompetitorMention = CompetitorMention(name: string, company: string)

  datatype ClinicConfig = ClinicConfig(
    id: string,
    name: string,
    tagline: string,
    services: seq<string>,
    ctaButtons: CtaButtons,
    competitorMention: CompetitorMention)
}
