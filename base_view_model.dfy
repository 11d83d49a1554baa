/**
 * BaseViewModel: the observable IsBusy and Title properties every view
 * model has, and the dispose pattern that runs the OnDispose hook at most
 * once however often Dispose is called.
 */
module ViewModelBase {
  import Notify

  class BaseViewModel {
    var isBusy: bool
    var title: string
    var disposed: bool
    /** The PropertyChanged events raised so far, oldest first. */
    var raised: seq<string>
    /** How many times the OnDispose hook has run. */
    ghost var onDisposeRuns: nat

    /** OnDispose has run exactly when the view model is disposed, and then once. */
    ghost predicate Valid()
      reads this`disposed, this`onDisposeRuns
    {
      onDisposeRuns == if disposed then 1 else 0
    }

    /** Title starts empty, IsBusy false, and nothing is disposed. */
    constructor()
      ensures !isBusy && title == "" && !disposed && raised == []
      ensures onDisposeRuns == 0 && Valid()
    {
      isBusy, title, disposed, raised := false, "", false, [];
      onDisposeRuns := 0;
    }

    /** The IsBusy setter, SetProperty(ref _isBusy, value): the result says whether the value changed. */
    method SetIsBusy(value: bool) returns (changed: bool)
      modifies this`isBusy, this`raised
      ensures changed <==> old(isBusy) != value
      ensures isBusy == value
      ensures raised == old(raised) + Notify.Raised(old(isBusy), value, "IsBusy")
    {
      changed := isBusy != value;
      raised := raised + Notify.Raised(isBusy, value, "IsBusy");
      isBusy := value;
    }

    /** The Title setter, SetProperty(ref _title, value). */
    method SetTitle(value: string) returns (changed: bool)
      modifies this`title, this`raised
      ensures changed <==> old(title) != value
      ensures title == value
      ensures raised == old(raised) + Notify.Raised(old(title), value, "Title")
    {
      changed := title != value;
      raised := raised + Notify.Raised(title, value, "Title");
      title := value;
    }

    /** Dispose(): the view model is disposed, and OnDispose has run once in all. */
    method Dispose()
      requires Valid()
      modifies this`disposed, this`onDisposeRuns
      ensures Valid() && disposed && onDisposeRuns == 1
      ensures old(disposed) ==> onDisposeRuns == old(onDisposeRuns)
    {
      DisposeCore(true);
    }

    /** Dispose(bool disposing): OnDispose runs only on the first call with disposing set. */
    method DisposeCore(disposing: bool)
      requires Valid()
      modifies this`disposed, this`onDisposeRuns
      ensures Valid()
      ensures disposed <==> old(disposed) || disposing
      ensures onDisposeRuns == old(onDisposeRuns) + (if !old(disposed) && disposing then 1 else 0)
    {
      if !disposed && disposing {
        // OnDispose: the base class's hook does nothing
        onDisposeRuns := onDisposeRuns + 1;
        disposed := true;
      }
    }
  }
}
