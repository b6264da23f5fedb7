/** The workflow document a language model produces.  The extension never
    validates its schema: it is carried around and finally serialised with
    `JSON.stringify` for delivery, so the model keeps only that serialisation. */
module Workflows {
  datatype Workflow = Workflow(json: string)
}
