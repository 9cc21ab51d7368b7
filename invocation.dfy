/** Reading the command line: `migrate <src> [<transformer>] <dest>` or
    `migrate <src> project <dest>`. */
module Invocation {
  import opened JsValues

  const PROJECT_KEYWORD := "project"
  const FORM_TRANSFORMER := "form"

  /** How the positional parameters read: `project` in second place selects the
      project mode with the built-in transformer; otherwise exactly two parameters
      are a source and a destination, and any other count is read as source,
      transformer, destination. A missing position is `undefined`. */
  predicate Parses(params: seq<string>, isProject: bool, src: Arg, transformer: Arg, dest: Arg) {
    && (isProject <==> Param(params, 1) == Defined(PROJECT_KEYWORD))
    && src == Param(params, 0)
    && (isProject ==> transformer == Defined(FORM_TRANSFORMER) && dest == Param(params, 2))
    && (!isProject && |params| == 2 ==> transformer == Defined(FORM_TRANSFORMER) && dest == Defined(params[1]))
    && (!isProject && |params| != 2 ==> transformer == Param(params, 1) && dest == Param(params, 2))
  }

  /** Splits the positional parameters into the mode and the three locations.
      The script starts from empty strings and overwrites every one of them. */
  method ParseParams(params: seq<string>) returns (isProject: bool, src: Arg, transformer: Arg, dest: Arg)
    ensures Parses(params, isProject, src, transformer, dest)
  {
    isProject := false;
    src := Defined("");
    dest := Defined("");
    transformer := Defined("");
    if Param(params, 1) == Defined(PROJECT_KEYWORD) {
      isProject := true;
      transformer := Defined(FORM_TRANSFORMER);
      src := Param(params, 0);
      dest := Param(params, 2);
    } else {
      src := Param(params, 0);
      transformer := if |params| == 2 then Defined(FORM_TRANSFORMER) else Param(params, 1);
      dest := if |params| == 2 then Param(params, 1) else Param(params, 2);
    }
  }
}
