/** The declarative description of the startup pitch form: the field and schema
    record types, the record type of one submission, and the one schema constant
    the application renders and hands out. Everything here is immutable data. */
module FormSchema {

  datatype Option<+T> = None | Some(value: T)

  /** The input widget a field is drawn with. */
  datatype FieldType = Text | Email | Textarea

  /** One input of the form. `name` is the key under which its value is kept and
      submitted; `id` identifies the rendered widget. */
  datatype FormField = FormField(
    id: string,
    name: string,
    fieldType: FieldType,
    labelText: string,
    placeholder: string,
    required: bool,
    description: Option<string>)

  datatype Schema = Schema(
    id: string,
    title: string,
    description: string,
    version: string,
    fields: seq<FormField>)

  /** One entry of the submission log. */
  datatype FormSubmission = FormSubmission(id: string, timestamp: string, data: map<string, string>)

  /** The literal string a field type is written as in the schema's JSON form. */
  function FieldTypeName(t: FieldType): (s: string)
    ensures s == "text" || s == "email" || s == "textarea"
  {
    match t
    case Text => "text"
    case Email => "email"
    case Textarea => "textarea"
  }

  /** Reads a field type back from its literal string; any other string is not a field type. */
  function ParseFieldType(s: string): (t: Option<FieldType>)
    ensures t.Some? <==> (s == "text" || s == "email" || s == "textarea")
  {
    if s == "text" then Some(Text)
    else if s == "email" then Some(Email)
    else if s == "textarea" then Some(Textarea)
    else None
  }

  lemma FieldTypeRoundTrip(t: FieldType)
    ensures ParseFieldType(FieldTypeName(t)) == Some(t)
  {
  }

  lemma FieldTypeNameRoundTrip(s: string)
    ensures ParseFieldType(s).Some? ==> FieldTypeName(ParseFieldType(s).value) == s
  {
  }

  /** The names of the fields, in schema order. */
  function FieldNames(fields: seq<FormField>): (names: seq<string>)
    ensures |names| == |fields|
    ensures forall i :: 0 <= i < |fields| ==> names[i] == fields[i].name
  {
    if fields == [] then [] else [fields[0].name] + FieldNames(fields[1..])
  }

  ghost predicate NamesDistinct(fields: seq<FormField>) {
    forall i, j :: 0 <= i < j < |fields| ==> fields[i].name != fields[j].name
  }

  ghost predicate IdsMatchNames(fields: seq<FormField>) {
    forall i :: 0 <= i < |fields| ==> fields[i].id == fields[i].name
  }

  ghost predicate AllRequired(fields: seq<FormField>) {
    forall i :: 0 <= i < |fields| ==> fields[i].required
  }

  const STARTUP_FORM_SCHEMA: Schema := Schema(
    "startup-pitch-form",
    "Startup Pitch Form",
    "A form for collecting startup pitch information. This form is accessible to both humans and AI agents.",
    "1.0.0",
    [
      FormField(
        "fullName", "fullName", Text,
        "Full Name",
        "John Doe",
        true,
        Some("The full name of the founder or team lead")),
      FormField(
        "email", "email", Email,
        "Email Address",
        "john@startup.com",
        true,
        Some("Primary contact email")),
      FormField(
        "problem", "problem", Textarea,
        "What problem are you solving?",
        "Describe the problem your startup addresses...",
        true,
        Some("A clear description of the problem or pain point your startup is addressing")),
      FormField(
        "valueProposition", "valueProposition", Textarea,
        "What's your unique value proposition?",
        "Explain what makes your solution unique...",
        true,
        Some("Your competitive advantage and what differentiates you from others")),
      FormField(
        "traction", "traction", Textarea,
        "What are your traction metrics?",
        "Share your key metrics, users, revenue, growth...",
        true,
        Some("Current traction including users, revenue, growth rate, or other relevant KPIs"))
    ])

  /** The five fields, in this order. */
  lemma StartupFieldOrder()
    ensures |STARTUP_FORM_SCHEMA.fields| == 5
    ensures FieldNames(STARTUP_FORM_SCHEMA.fields)
         == ["fullName", "email", "problem", "valueProposition", "traction"]
  {
  }

  lemma StartupNamesDistinct()
    ensures NamesDistinct(STARTUP_FORM_SCHEMA.fields)
  {
  }

  lemma StartupIdsMatchNames()
    ensures IdsMatchNames(STARTUP_FORM_SCHEMA.fields)
  {
  }

  lemma StartupAllRequired()
    ensures AllRequired(STARTUP_FORM_SCHEMA.fields)
  {
  }

  /** Only `fullName` is a text input and only `email` an email input; the other three are text areas. */
  lemma StartupFieldTypes()
    ensures forall f :: f in STARTUP_FORM_SCHEMA.fields ==> (f.fieldType == Text <==> f.name == "fullName")
    ensures forall f :: f in STARTUP_FORM_SCHEMA.fields ==> (f.fieldType == Email <==> f.name == "email")
    ensures forall f :: f in STARTUP_FORM_SCHEMA.fields ==>
      (f.fieldType == Textarea <==> f.name in {"problem", "valueProposition", "traction"})
  {
  }

  lemma StartupMetadata()
    ensures STARTUP_FORM_SCHEMA.id == "startup-pitch-form"
    ensures STARTUP_FORM_SCHEMA.version == "1.0.0"
    ensures STARTUP_FORM_SCHEMA.title == "Startup Pitch Form"
  {
  }
}
