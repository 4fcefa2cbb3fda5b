/** The worker's fixed configuration: its cache generation, its manifest of
    app-shell URLs, the third-party hosts whose responses it caches, and the
    scope it runs in. */
module Config {

  /** The current cache generation. */
  const CACHE_NAME: string := "tahfidz-tracker-v1.0.0"

  /** The app shell added to the current cache at installation, in order. */
  const CACHE_URLS: seq<string> := [
    "./",
    "./index.html",
    "./manifest.json",
    "./icon-192.png",
    "./icon-512.png",
    "https://cdn.tailwindcss.com",
    "https://unpkg.com/vue@3/dist/vue.global.js",
    "https://unpkg.com/@supabase/supabase-js@2",
    "https://fonts.googleapis.com/css2?family=Inter:wght@400;500;600;700&display=swap",
    "https://fonts.gstatic.com/s/inter/v12/UcC73FwrK3iLTeHuS_fvQtMwCp50KnMa1ZL7.woff2"
  ]

  /** The document served to a navigation that fails while offline. */
  const INDEX_URL: string := "./index.html"

  /** Third-party hosts whose successful responses are cached on a miss. */
  const ALLOWED_HOSTS: seq<string> := [
    "cdn.tailwindcss.com",
    "unpkg.com",
    "fonts.googleapis.com",
    "fonts.gstatic.com"
  ]

  /** Where the worker runs: `self.location.origin`, and how a URL written
      relative to the worker script (such as "./index.html") becomes the
      absolute URL that keys a cache entry. */
  datatype Scope = Scope(origin: string, resolve: string -> string)

  /** The cache keys of a list of URLs, resolved in the worker's scope. */
  function Resolved(scope: Scope, urls: seq<string>): seq<string>
  {
    seq(|urls|, i requires 0 <= i < |urls| => scope.resolve(urls[i]))
  }
}
