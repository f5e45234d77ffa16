/**
 * The host services the server calls but that are not modelled: the `path.join` of the
 * standard library and the file system. Each is an oracle the caller supplies.
 */
module Platform {
  import opened Wrappers

  datatype Host = Host(
    /** `path.join(a, b)`; its normalisation is not modelled */
    join: (string, string) -> string,
    /** `fsDir.exists(p)`: something exists at path p */
    pathExists: string -> bool,
    /** reading and `JSON.parse`-ing the file at p and testing `.imports` for truthiness;
        `Failure(message)` when the read or the parse throws */
    denoImports: string -> Result<bool, string>)
}
