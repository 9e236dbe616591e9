/** How the client addresses the agent service: the two configuration values,
    each with its trailing slashes removed, and the URL builders `api` and
    `file_url` (streamlit_app.py:19-27, 97-99). */
module BackendUrl {
  import opened Text

  /** Used when `AGENT_API_URL` is not set. */
  const DefaultApiUrl: string := "http://localhost:8000"

  /** The two values read from the environment once, at start-up. */
  datatype Config = Config(apiUrl: string, serviceRootPath: string)

  /** `AGENT_API_URL` (default `DefaultApiUrl`) and `TFY_SERVICE_ROOT_PATH` (default empty),
      each stripped of every trailing `/`. `None` stands for an unset variable. */
  function LoadConfig(envApiUrl: Option<string>, envRootPath: Option<string>): (c: Config)
    ensures envApiUrl.Some? ==> RightStripped(c.apiUrl, envApiUrl.value, {'/'})
    ensures envApiUrl.None? ==> c.apiUrl == DefaultApiUrl
    ensures envRootPath.Some? ==> RightStripped(c.serviceRootPath, envRootPath.value, {'/'})
    ensures envRootPath.None? ==> c.serviceRootPath == ""
  {
    var apiUrl := if envApiUrl.Some? then envApiUrl.value else DefaultApiUrl;
    var rootPath := if envRootPath.Some? then envRootPath.value else "";
    assert DefaultApiUrl[|DefaultApiUrl| - 1] == '0';
    Config(RStrip(apiUrl, {'/'}), RStrip(rootPath, {'/'}))
  }

  /** The URL of endpoint `path` on the agent service, behind the optional root path. */
  function Api(cfg: Config, path: string): (url: string)
    ensures url == cfg.apiUrl + cfg.serviceRootPath + path
  {
    if cfg.serviceRootPath != "" then cfg.apiUrl + cfg.serviceRootPath + path
    else cfg.apiUrl + path
  }

  /** The URL under which the service's static file mount serves `relPath`. */
  function FileUrl(cfg: Config, relPath: string): (url: string)
    ensures url == cfg.apiUrl + cfg.serviceRootPath + "/files/" + relPath
  {
    Api(cfg, "/files/" + relPath)
  }

  /** A loaded configuration never ends in `/`, so `Api` never produces a `//` at either join
      unless the endpoint path itself starts one. */
  lemma LoadedConfigHasNoTrailingSlash(envApiUrl: Option<string>, envRootPath: Option<string>)
    ensures var c := LoadConfig(envApiUrl, envRootPath);
      && (c.apiUrl == "" || c.apiUrl[|c.apiUrl| - 1] != '/')
      && (c.serviceRootPath == "" || c.serviceRootPath[|c.serviceRootPath| - 1] != '/')
  {
  }

  /** The relative path is inserted verbatim: it is exactly what follows the `/files/`
      endpoint of the backend root, with no escaping and no normalisation. */
  lemma FileUrlVerbatim(cfg: Config, relPath: string)
    ensures var url := FileUrl(cfg, relPath);
      && |url| == |Api(cfg, "/files/")| + |relPath|
      && url[..|Api(cfg, "/files/")|] == Api(cfg, "/files/")
      && url[|Api(cfg, "/files/")|..] == relPath
  {
  }

  /** Distinct relative paths give distinct file URLs under one configuration. */
  lemma {:induction false} FileUrlInjective(cfg: Config, p: string, q: string)
    requires FileUrl(cfg, p) == FileUrl(cfg, q)
    ensures p == q
  {
    FileUrlVerbatim(cfg, p);
    FileUrlVerbatim(cfg, q);
  }

  /** With both variables unset the client talks to the local default service. */
  lemma DefaultEndpoints(path: string)
    ensures Api(LoadConfig(None, None), path) == "http://localhost:8000" + path
  {
  }
}
