/**
 * The older project-configuration holder (src/AppConfig.ts), the one the
 * builders use. Its four fields are captured once, when the object is built,
 * from the module `app.config.js` exports; each getter falls back on a fixed
 * default when its field is missing or empty.
 */
module AppConfig {
  import opened Wrappers
  import Js

  /** What `app.config.js` exports, as far as this revision reads it; `None` is a missing field. */
  datatype AppFile = AppFile(
    distDir: Option<string>,
    assetsDir: Option<string>,
    publicPath: Option<string>,
    sassAdditionalData: Option<string>)

  class AppConfig {
    const rootPath: string
    const distDir: Option<string>
    const assetsDir: Option<string>
    const publicPath: Option<string>
    const sassAdditionalData: Option<string>

    /** The fields hold what `file` gave: nothing without a file, otherwise each entry with "" for a missing one. */
    ghost predicate Loaded(file: Option<AppFile>) {
      match file
      case None => distDir.None? && assetsDir.None? && publicPath.None? && sassAdditionalData.None?
      case Some(f) =>
        && distDir == Some(f.distDir.GetOr(""))
        && assetsDir == Some(f.assetsDir.GetOr(""))
        && publicPath == Some(f.publicPath.GetOr(""))
        && sassAdditionalData == Some(f.sassAdditionalData.GetOr(""))
    }

    /**
     * `file` is what `<rootPath>/app.config.js` exports, or `None` when there is no
     * such file. A present file sets every field, a missing entry becoming "".
     */
    constructor (rootPath: string, file: Option<AppFile>)
      ensures this.rootPath == rootPath
      ensures Loaded(file)
      ensures file.None? ==>
        GetDistDir() == "dist" && GetAssetsDir() == "static" && GetPublicPath() == "/" && GetSassAdditionalData() == ""
    {
      this.rootPath := rootPath;
      match file
      case None =>
        distDir, assetsDir, publicPath, sassAdditionalData := None, None, None, None;
      case Some(f) =>
        distDir := Some(f.distDir.GetOr(""));
        assetsDir := Some(f.assetsDir.GetOr(""));
        publicPath := Some(f.publicPath.GetOr(""));
        sassAdditionalData := Some(f.sassAdditionalData.GetOr(""));
    }

    /** The output directory: the captured one unless missing or empty, then "dist". */
    function GetDistDir(): (r: string)
      ensures r != ""
      ensures r == (if distDir.Some? && distDir.value != "" then distDir.value else "dist")
    {
      Js.Or(distDir, "dist")
    }

    /** The assets directory: the captured one unless missing or empty, then "static". */
    function GetAssetsDir(): (r: string)
      ensures r != ""
      ensures r == (if assetsDir.Some? && assetsDir.value != "" then assetsDir.value else "static")
    {
      Js.Or(assetsDir, "static")
    }

    /** The public path: the captured one unless missing or empty, then "/". */
    function GetPublicPath(): (r: string)
      ensures r != ""
      ensures r == (if publicPath.Some? && publicPath.value != "" then publicPath.value else "/")
    {
      Js.Or(publicPath, "/")
    }

    /** Extra source prepended to every Sass file; the one getter whose result can be empty. */
    function GetSassAdditionalData(): (r: string)
      ensures r == "" <==> sassAdditionalData.None? || sassAdditionalData.value == ""
      ensures r != "" ==> r == sassAdditionalData.value
    {
      Js.Or(sassAdditionalData, "")
    }
  }
}
