/**
 * The lines the `tethys docker` commands print. Each kind of line is a constructor; the
 * service title it mentions ("PostGIS", "GeoServer", "52 North WPS") is a field, and `Text`
 * gives the exact characters printed.
 */
module Messages {
  datatype Line =
    | Starting(title: string)
    | AlreadyRunning(title: string)
    | ContainerMissing(title: string)
    | Stopping(title: string)
    | AlreadyStopped(title: string)
    | Removing(title: string)
    | Installing(title: string)
    | AlreadyInstalled(title: string)
    | InstallSucceeded
    | ImagesAlreadyPulled
    | PullingImages
    | StatusReport(heading: string, word: string)

  /** The printed text of a line. */
  function Text(line: Line): string {
    match line
    case Starting(t) => "Starting " + t + " container..."
    case AlreadyRunning(t) => t + " container already running..."
    case ContainerMissing(t) => t + " container not installed..."
    case Stopping(t) => "Stopping " + t + " container..."
    case AlreadyStopped(t) => t + " container already stopped."
    case Removing(t) => "Removing " + t + "..."
    case Installing(t) => "\nInstalling the " + t + " Docker container..."
    case AlreadyInstalled(t) => t + " Docker container already installed: skipping."
    case InstallSucceeded => "\nThe Docker containers have been successfully installed."
    case ImagesAlreadyPulled => "Docker images already pulled."
    case PullingImages => "Pulling Docker images..."
    case StatusReport(h, w) => h + ": " + w
  }

  /** Status reports with different words print differently. */
  lemma {:induction false} StatusReportsDiffer(heading: string, w1: string, w2: string)
    requires w1 != w2
    ensures Text(StatusReport(heading, w1)) != Text(StatusReport(heading, w2))
  {
    var t1 := Text(StatusReport(heading, w1));
    var t2 := Text(StatusReport(heading, w2));
    var n := |heading| + 2;
    assert t1[n..] == w1 && t2[n..] == w2;
  }
}
