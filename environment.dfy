/**
 * What the scripts see of the world: the process environment, the files of
 * the mounted `/adguard` volume, and the outbound HTTP requests. The requests
 * and every file write are recorded, in order, in an event log, so that the
 * sequencing of backups, patch and restart can be stated.
 */
module Environment {
  import opened Wrappers

  /** `os.getenv(name, default)`. */
  function Getenv(env: map<string, string>, name: string, default: string): string {
    if name in env then env[name] else default
  }

  /** The Docker Engine API endpoint that restarts a container. */
  function RestartUrl(dockerApiUrl: string, containerName: string): string {
    dockerApiUrl + "/containers/" + containerName + "/restart"
  }

  datatype Event =
    | Wrote(path: string)                  // `Path.write_text` / `open(..., "w")`
    | Renamed(source: string, target: string)  // `Path.replace`
    | Got(url: string)                     // `requests.get`
    | Posted(url: string)                  // `requests.post`

  /** The host the scripts run on: file contents by path, and the log of effects. */
  class Host {
    var files: map<string, string>
    var log: seq<Event>

    constructor (files0: map<string, string>)
      ensures files == files0 && log == []
    {
      files := files0;
      log := [];
    }

    method WriteText(path: string, text: string)
      modifies this
      ensures files == old(files)[path := text]
      ensures log == old(log) + [Wrote(path)]
    {
      files := files[path := text];
      log := log + [Wrote(path)];
    }

    /** Atomic rename onto `target`; afterwards `source` no longer exists. */
    method Replace(source: string, target: string)
      requires source in files && source != target
      modifies this
      ensures files == (old(files) - {source})[target := old(files)[source]]
      ensures log == old(log) + [Renamed(source, target)]
    {
      files := (files - {source})[target := files[source]];
      log := log + [Renamed(source, target)];
    }

    /**
     * A GET whose outcome is given by `fetch`: the body of a successful
     * response, or None for a transport error or an error status.
     */
    method Get(url: string, fetch: string -> Option<string>) returns (body: Option<string>)
      modifies this
      ensures body == fetch(url)
      ensures files == old(files) && log == old(log) + [Got(url)]
    {
      body := fetch(url);
      log := log + [Got(url)];
    }

    /** A POST whose response the scripts only log. */
    method Post(url: string)
      modifies this
      ensures files == old(files) && log == old(log) + [Posted(url)]
    {
      log := log + [Posted(url)];
    }
  }
}
