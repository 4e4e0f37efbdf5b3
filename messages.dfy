/** Domain events and commands (the frozen dataclasses of the template modules) and
    the items a bus queue may hold. */
module Messages {
  import opened Common

  /** `TemplateValue.value` of the two string variants: `None`, a string, or any other
      Python object (represented by an integer). */
  datatype TextValue = Null | Text(s: string) | NonText(n: int)

  /** The value carried by a command or an event: the integer variant or a string variant. */
  datatype Payload = Number(n: int) | Textual(t: TextValue)

  /** Domain events. `OtherEvent` stands for any other `DomainEvent` subclass, named by its class. */
  datatype Event =
    | TemplateCreated(templateId: Id, timestamp: Timestamp)
    | TemplateValueSet(templateId: Id, value: Payload)
    | TemplateValueSubtracted(templateId: Id, subtractedValue: int, finalValue: int)
    | TemplateDeleted(templateId: Id)
    | OtherEvent(typeName: string)

  /** Domain commands. `SubtractTemplateValue` has a single amount field (see README). */
  datatype Command =
    | SetTemplateValue(templateId: Id, value: Payload)
    | SubtractTemplateValue(templateId: Id, amount: int)
    | CreateTemplate
    | DeleteTemplate(templateId: Id)
    | OtherCommand(typeName: string)

  /** Anything that can sit in a bus queue: an event, a command, or a value that is neither. */
  datatype Item = Ev(event: Event) | Cmd(command: Command) | NotAMessage

  /** A `TemplateValueSet` of the `template_module` classes: that module sets strings,
      while `modules.template` sets integers. */
  predicate TextualValueSet(e: Event) {
    e.TemplateValueSet? && e.value.Textual?
  }

  /** The exact class of an event, which is what the bus dispatches on. The two modules'
      `TemplateValueSet` classes are told apart by their payload. */
  function EventType(e: Event): string {
    match e
    case TemplateCreated(_, _) => "TemplateCreated"
    case TemplateValueSet(_, v) => if v.Textual? then "template_module.TemplateValueSet" else "TemplateValueSet"
    case TemplateValueSubtracted(_, _, _) => "TemplateValueSubtracted"
    case TemplateDeleted(_) => "TemplateDeleted"
    case OtherEvent(name) => name
  }

  /** The exact class of a command. */
  function CommandType(c: Command): string {
    match c
    case SetTemplateValue(_, _) => "SetTemplateValue"
    case SubtractTemplateValue(_, _) => "SubtractTemplateValue"
    case CreateTemplate => "CreateTemplate"
    case DeleteTemplate(_) => "DeleteTemplate"
    case OtherCommand(name) => name
  }

  /** `isinstance(x, Message)`: an event or a command. */
  predicate IsMessage(x: Item) {
    !x.NotAMessage?
  }
}
