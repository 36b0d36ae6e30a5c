/** The worker's fixed configuration (sw.js, lines 10-22 and 83-84). */
module Config {

  /** The Cache Version Identifier: the one cache this version of the worker owns. */
  const CACHE_NAME: string := "yiu-attendance-v1"

  /** The offline fallback document, relative to the worker's directory. */
  const OFFLINE_URL: string := "offline.html"

  /** The static asset manifest, in its configured order. */
  const STATIC_ASSETS: seq<string> := [
    "./",
    "./index.html",
    "./admin.html",
    "./offline.html",
    "./manifest.json",
    "./icons/icon-192.png",
    "./icons/icon-512.png"
  ]

  /** Hostname fragments of the Apps Script backend whose requests are never intercepted. */
  const SCRIPT_HOST: string := "script.google.com"
  const SCRIPT_CONTENT_HOST: string := "script.googleusercontent.com"
}
