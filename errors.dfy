/**
 * The exception taxonomy of src/exceptions.py, plus the foreign exceptions
 * that the core lets propagate.
 */
module Errors {

  datatype Error =
    | AutomationError(message: string)
    | BrowserInitializationError(message: string)
    | ElementNotFoundError(message: string)
    | ScriptGenerationError(message: string)
      /** Python's built-in ValueError (unsupported framework, missing API key). */
    | ValueError(message: string)
      /** An exception raised by the browser driver or the language-model client
          and re-raised unchanged by the core. */
    | CollaboratorError(message: string)
      /** Python's KeyError, raised by a subscript of a dict without the key. */
    | KeyError(message: string)
  {
    /** True for the classes that derive from AutomationError. */
    predicate IsAutomationError() {
      !ValueError? && !CollaboratorError? && !KeyError?
    }
  }
}
