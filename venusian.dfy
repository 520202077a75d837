/** What both collectors see of a venusian scan: the exception classes the
    scan hands to the `onerror` hook when importing a submodule fails, and
    the scans of several modules run one after the other. */
module Venusian {

  /** The class of the exception being handled when `onerror` is called. */
  datatype ErrorClass =
    | ImportError
    | ModuleNotFoundError                      // a subclass of ImportError
    | ImportErrorSubclass(className: string)   // any other subclass of ImportError
    | OtherError(className: string)            // a class outside the ImportError hierarchy

  /** `issubclass(exc, ImportError)`: the errors `ignore_import_error` swallows. */
  predicate IsImportError(e: ErrorClass)
  {
    !e.OtherError?
  }

  /** The events of all module scans, one module after the other. */
  function Flatten<T>(modules: seq<seq<T>>): seq<T>
  {
    if modules == [] then [] else modules[0] + Flatten(modules[1..])
  }
}
