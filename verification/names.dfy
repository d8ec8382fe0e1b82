/** The view names of the dashboard. A name is both the key of a panel in the
    registry and the identifier of its view on the terminal surface; Label
    gives the string the program uses for it: no two names share one, and
    none is "", the name that scopes a key binding to every view. */
module Names {

  datatype Name =
    | ImageListPanel
    | PullImagePanel
    | ContainerListPanel
    | DetailPanel
    | CreateContainerPanel
    | ErrMessagePanel
    | SaveImagePanel
    | ImportImagePanel
    | LoadImagePanel
    | ExportContainerPanel
    | CommitContainerPanel
    | RenameContainerPanel
    | ConfirmMessagePanel
    | StateMessagePanel
    | SearchImagePanel
    | SearchImageResultPanel
    | VolumeListPanel
    | CreateVolumePanel
    | NavigatePanel

  /** The string the program uses for a view name. */
  function Label(n: Name): (s: string)
    ensures |s| > 0
  {
    match n
    case ImageListPanel => "image list"
    case PullImagePanel => "pull image"
    case ContainerListPanel => "container list"
    case DetailPanel => "detail"
    case CreateContainerPanel => "create container"
    case ErrMessagePanel => "error message"
    case SaveImagePanel => "save image"
    case ImportImagePanel => "import image"
    case LoadImagePanel => "load image"
    case ExportContainerPanel => "export container"
    case CommitContainerPanel => "commit container"
    case RenameContainerPanel => "rename container"
    case ConfirmMessagePanel => "confirm"
    case StateMessagePanel => "state"
    case SearchImagePanel => "search images"
    case SearchImageResultPanel => "images"
    case VolumeListPanel => "volume list"
    case CreateVolumePanel => "create volume"
    case NavigatePanel => "navigate"
  }

  /** Distinct names are distinct strings, so a name stands for its string. */
  lemma LabelInjective(a: Name, b: Name)
    requires Label(a) == Label(b)
    ensures a == b
  {
  }

  /** The panels that take part in next/previous focus cycling. */
  const Cyclable: set<Name> := {ImageListPanel, ContainerListPanel, DetailPanel, VolumeListPanel}

  /** The three modal overlays. */
  const Overlays: set<Name> := {ErrMessagePanel, ConfirmMessagePanel, StateMessagePanel}
}
