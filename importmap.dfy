/** `detectImportMapFile`: which import map, if any, a service directory provides. */
module ImportMap {
  import opened Wrappers
  import Platform

  function ImportMapPath(host: Platform.Host, dir: string): string
  {
    host.join(dir, "import_map.json")
  }

  function DenoPath(host: Platform.Host, dir: string): string
  {
    host.join(dir, "deno.json")
  }

  /**
   * `import_map.json` when it exists; otherwise `deno.json` when it exists and its `imports`
   * is truthy; otherwise null. A `deno.json` that cannot be read or parsed makes the call
   * throw (`Failure`).
   */
  function DetectImportMapFile(host: Platform.Host, dir: string): (r: Result<Option<string>, string>)
    ensures r == Success(Some(ImportMapPath(host, dir))) <==> host.pathExists(ImportMapPath(host, dir))
    ensures r.Success? && r.value.Some? && r.value.value != ImportMapPath(host, dir) ==>
      && r.value.value == DenoPath(host, dir)
      && !host.pathExists(ImportMapPath(host, dir)) && host.pathExists(DenoPath(host, dir))
      && host.denoImports(DenoPath(host, dir)) == Success(true)
    ensures r == Success(None) <==>
      && !host.pathExists(ImportMapPath(host, dir))
      && (!host.pathExists(DenoPath(host, dir)) || host.denoImports(DenoPath(host, dir)) == Success(false))
    ensures r.Failure? <==>
      && !host.pathExists(ImportMapPath(host, dir)) && host.pathExists(DenoPath(host, dir))
      && host.denoImports(DenoPath(host, dir)).Failure?
    ensures r.Failure? ==> r.error == host.denoImports(DenoPath(host, dir)).error
  {
    var importMapPath := ImportMapPath(host, dir);
    if host.pathExists(importMapPath) then Success(Some(importMapPath))
    else
      var denoPath := DenoPath(host, dir);
      if host.pathExists(denoPath) then
        match host.denoImports(denoPath)
        case Failure(e) => Failure(e)
        case Success(hasImports) => if hasImports then Success(Some(denoPath)) else Success(None)
      else Success(None)
  }
}
