/**
 * The options hash handed to the converter factory and to the converters it
 * builds. Only the `:template_dirs` key is interpreted here; every other key
 * is carried along untouched.
 */
module ConverterOptions {

  /** The name of any key other than `:template_dirs` (under Opal a symbol is its string). */
  type OtherKey = name: string | name != "template_dirs" witness "backend"

  datatype OptionKey = TemplateDirs | Named(name: OtherKey)

  /** An option value: a single string or a list of strings. */
  datatype OptionValue = Text(text: string) | TextList(items: seq<string>)

  type Options = map<OptionKey, OptionValue>
}
