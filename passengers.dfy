/**
 * The passenger record the form hands to the prediction service, and the
 * check of its required fields.
 */
module Passengers {

  /**
   * A numeric entry of the form: left blank, or holding the number its text
   * parses to.
   */
  datatype Entry<T> = Blank | Given(value: T)

  /**
   * A categorical entry, as far as the service tells texts apart: blank, the
   * code of one of the known values, or some other non-empty text.
   */
  datatype Choice<T> = Empty | Known(value: T) | Other

  /** The sexes the form offers, written "female" and "male". */
  datatype Sex = Female | Male

  /** The embarkation ports the form offers, written "C", "Q" and "S". */
  datatype Port = Cherbourg | Queenstown | Southampton

  /** One passenger as entered. */
  datatype PassengerData = PassengerData(
    name: string,
    pclass: Entry<int>,
    sex: Choice<Sex>,
    age: Entry<real>,
    sibsp: int,
    parch: int,
    fare: Entry<real>,
    cabin: bool,
    embarked: Choice<Port>)

  /** How the text of the sex entry is read. */
  function SexEntry(text: string): Choice<Sex> {
    if text == "" then Empty
    else if text == "female" then Known(Female)
    else if text == "male" then Known(Male)
    else Other
  }

  /** How the text of the embarkation entry is read. */
  function PortEntry(text: string): Choice<Port> {
    if text == "" then Empty
    else if text == "C" then Known(Cherbourg)
    else if text == "Q" then Known(Queenstown)
    else if text == "S" then Known(Southampton)
    else Other
  }

  /**
   * True when one of the six mandatory entries is empty. The cabin flag is
   * never checked, and neither are the two family counts.
   */
  predicate MissingRequired(d: PassengerData) {
    || d.name == ""
    || d.pclass.Blank?
    || d.sex.Empty?
    || d.age.Blank?
    || d.fare.Blank?
    || d.embarked.Empty?
  }

  /** The numeric entries feature derivation reads are present. */
  predicate Parsed(d: PassengerData) {
    d.pclass.Given? && d.age.Given? && d.fare.Given?
  }
}
