/** Locator strategies and the fixed registry of form fields a FormTester knows. */
module Locators {

  /** The Selenium `By` kinds the registry uses. The expression a kind carries
      is handed to the browser unread, so the model keeps it as an opaque string. */
  datatype By = Id | Name | CssSelector | XPath

  /** One `(kind, expression)` pair of a fallback list. */
  datatype Strategy = Strategy(kind: By, expression: string)

  /** A field name with its ordered fallback list: earlier strategies are tried first. */
  datatype FormFieldLocator = FormFieldLocator(name: string, strategies: seq<Strategy>)

  /** How long (in ticks) each explicit wait may last. */
  const WAIT_TIME: nat := 10

  /** The registry invariant: every key names a locator of that same name
      and every locator has at least one strategy to try. */
  predicate WellFormedRegistry(fields: map<string, FormFieldLocator>)
  {
    forall key :: key in fields ==> fields[key].name == key && fields[key].strategies != []
  }

  /** The fallback list of the `name` field, most specific first. */
  const NAME_FIELD := FormFieldLocator("name", [
    Strategy(Id, "name"),
    Strategy(Name, "name"),
    Strategy(CssSelector, "input[placeholder*=\"name\" i]"),
    Strategy(XPath, "//input[contains(@placeholder, 'name') or contains(@label, 'name')]"),
    Strategy(XPath, "//label[contains(text(), 'Name')]/following::input[1]")
  ])

  /** The fallback list of the `email` field. */
  const EMAIL_FIELD := FormFieldLocator("email", [
    Strategy(Id, "email"),
    Strategy(Name, "email"),
    Strategy(CssSelector, "input[type=\"email\"]"),
    Strategy(CssSelector, "input[placeholder*=\"email\" i]"),
    Strategy(XPath, "//label[contains(text(), 'Email')]/following::input[1]")
  ])

  /** The fallback list of the `phone` field, whose element the page calls `mobile`. */
  const PHONE_FIELD := FormFieldLocator("phone", [
    Strategy(Id, "mobile"),
    Strategy(Name, "mobile"),
    Strategy(CssSelector, "input[type=\"tel\"]"),
    Strategy(CssSelector, "input[placeholder*=\"phone\" i]"),
    Strategy(CssSelector, "input[placeholder*=\"mobile\" i]"),
    Strategy(XPath, "//label[contains(text(), 'phone')]/following::input[1]"),
    Strategy(XPath, "//label[contains(text(), 'mobile')]/following::input[1]")
  ])

  /** The three fields a FormTester is built with, keyed by field name. */
  function Registry(): (fields: map<string, FormFieldLocator>)
    ensures fields.Keys == {"name", "email", "phone"}
    ensures WellFormedRegistry(fields)
    ensures forall key :: key in fields ==> |fields[key].strategies| <= 7
  {
    map["name" := NAME_FIELD, "email" := EMAIL_FIELD, "phone" := PHONE_FIELD]
  }
}
