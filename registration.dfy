/**
 * `init`: the API version negotiated with the Riru core and the adoption of
 * the core's allow-unload slot. The descriptor's other contents are static
 * data and are not modelled.
 */
module Registration {

  /** The first core API version that offers the allow-unload slot. */
  const AllowUnloadSince := 25

  /** What `init` reads from the core: its highest API version and its allow-unload slot. */
  datatype Riru = Riru(riruApiVersion: int, allowUnload: array?<int>)

  /** The version both sides speak: the smaller of the core's and the module's. */
  function NegotiatedVersion(coreMax: int, moduleMax: int): (v: int)
    ensures v <= coreMax && v <= moduleMax
    ensures v == coreMax || v == moduleMax
  {
    if coreMax <= moduleMax then coreMax else moduleMax
  }

  class ModuleRegistration {
    /** `RIRU_MODULE_API_VERSION`, fixed when the module is built. */
    const builtApiVersion: int
    /** `module.moduleApiVersion` */
    var moduleApiVersion: int
    /** `riru_api_version` */
    var riruApiVersion: int
    /** `riru_allow_unload` */
    var allowUnload: array?<int>

    constructor (builtApiVersion: int)
      ensures this.builtApiVersion == builtApiVersion
      ensures moduleApiVersion == builtApiVersion && riruApiVersion == 0 && allowUnload == null
    {
      this.builtApiVersion := builtApiVersion;
      moduleApiVersion := builtApiVersion;
      riruApiVersion := 0;
      allowUnload := null;
    }

    method Init(riru: Riru)
      modifies this
      ensures riruApiVersion == NegotiatedVersion(riru.riruApiVersion, builtApiVersion)
      ensures moduleApiVersion == riruApiVersion
      ensures allowUnload == if riruApiVersion >= AllowUnloadSince then riru.allowUnload else old(allowUnload)
    {
      var coreMaxApiVersion := riru.riruApiVersion;
      riruApiVersion := if coreMaxApiVersion <= builtApiVersion then coreMaxApiVersion else builtApiVersion;
      moduleApiVersion := riruApiVersion;
      if riruApiVersion >= AllowUnloadSince {
        allowUnload := riru.allowUnload;
      }
    }
  }
}
