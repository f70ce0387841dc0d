/** The argument vector handed to the operating system when a command is launched. */
module Process {

  /** The program and its arguments, in order. */
  datatype Argv = Argv(program: string, args: seq<string>)
}
