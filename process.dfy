/**
 * The one external collaborator of the core: the `docker` command-line tool.
 * Every invocation is modelled by an oracle that maps the argument vector to
 * what `Command::new("docker").args(..).output()` produced.
 */
module Process {

  import opened Text

  /** `Exited` is a finished process (exit status, captured streams);
      `SpawnFailed` is the `io::Error` of `output()`, shown as text. */
  datatype DockerRun =
    | Exited(success: bool, stdout: String, stderr: String)
    | SpawnFailed(error: String)

  /** The docker CLI's answer to each argument vector. */
  type Docker = seq<String> -> DockerRun
}
