/** The mascot's state container: pose, message, tips and the two onboarding
    flags, of which only the flags are persisted. */
module MarthaStore {
  import opened Types
  import opened Seqs

  const WELCOME_MESSAGE: string :=
    "Welcome! I'm Martha, your virtual assistant. I'm here to help you manage the Europe Mission finances with ease!"

  /** The part of the state written to local storage. */
  datatype Persisted = Persisted(hasCompletedOnboarding: bool, isFirstVisit: bool)

  function MarkDismissed(id: string): Tip -> Tip {
    (t: Tip) => if t.id == id then t.(dismissed := true) else t
  }

  /** tips.map(t => t.id === id ? { ...t, dismissed: true } : t) */
  function DismissedTips(tips: seq<Tip>, id: string): (r: seq<Tip>)
    ensures |r| == |tips|
    ensures forall i :: 0 <= i < |tips| && tips[i].id == id ==> r[i] == tips[i].(dismissed := true)
    ensures forall i :: 0 <= i < |tips| && tips[i].id != id ==> r[i] == tips[i]
  {
    Map(tips, MarkDismissed(id))
  }

  /** Dismissing the same id twice is the same as dismissing it once. */
  lemma DismissIdempotent(tips: seq<Tip>, id: string)
    ensures DismissedTips(DismissedTips(tips, id), id) == DismissedTips(tips, id)
  {
    var once := DismissedTips(tips, id);
    var twice := DismissedTips(once, id);
    assert forall i :: 0 <= i < |tips| ==> twice[i] == once[i];
  }

  /** Dismissals of different ids commute. */
  lemma DismissCommutes(tips: seq<Tip>, a: string, b: string)
    ensures DismissedTips(DismissedTips(tips, a), b) == DismissedTips(DismissedTips(tips, b), a)
  {
    var ab := DismissedTips(DismissedTips(tips, a), b);
    var ba := DismissedTips(DismissedTips(tips, b), a);
    assert forall i :: 0 <= i < |tips| ==> ab[i] == ba[i];
  }

  class Store {
    var currentPose: Pose
    var currentMessage: string
    var tips: seq<Tip>
    var hasCompletedOnboarding: bool
    var isFirstVisit: bool

    /** The initial state. */
    constructor()
      ensures currentPose == Greeting && currentMessage == WELCOME_MESSAGE && tips == []
      ensures Saved() == Persisted(false, true)
    {
      currentPose := Greeting;
      currentMessage := WELCOME_MESSAGE;
      tips := [];
      hasCompletedOnboarding := false;
      isFirstVisit := true;
    }

    /** The initial state with the persisted flags merged back in. */
    constructor Rehydrated(saved: Persisted)
      ensures currentPose == Greeting && currentMessage == WELCOME_MESSAGE && tips == []
      ensures Saved() == saved
    {
      currentPose := Greeting;
      currentMessage := WELCOME_MESSAGE;
      tips := [];
      hasCompletedOnboarding := saved.hasCompletedOnboarding;
      isFirstVisit := saved.isFirstVisit;
    }

    /** partialize: only the two onboarding flags are persisted. */
    function Saved(): Persisted
      reads this
    {
      Persisted(hasCompletedOnboarding, isFirstVisit)
    }

    method SetPose(pose: Pose)
      modifies this
      ensures currentPose == pose
      ensures currentMessage == old(currentMessage) && tips == old(tips) && Saved() == old(Saved())
    {
      currentPose := pose;
    }

    method SetMessage(message: string)
      modifies this
      ensures currentMessage == message
      ensures currentPose == old(currentPose) && tips == old(tips) && Saved() == old(Saved())
    {
      currentMessage := message;
    }

    /** speak: the message is set; the pose changes only when one is given. */
    method Speak(message: string, pose: Option<Pose>)
      modifies this
      ensures currentMessage == message
      ensures currentPose == pose.GetOr(old(currentPose))
      ensures tips == old(tips) && Saved() == old(Saved())
    {
      currentMessage := message;
      currentPose := pose.GetOr(currentPose);
    }

    method AddTip(tip: Tip)
      modifies this
      ensures tips == old(tips) + [tip]
      ensures currentPose == old(currentPose) && currentMessage == old(currentMessage) && Saved() == old(Saved())
    {
      tips := tips + [tip];
    }

    method DismissTip(id: string)
      modifies this
      ensures tips == DismissedTips(old(tips), id)
      ensures currentPose == old(currentPose) && currentMessage == old(currentMessage) && Saved() == old(Saved())
    {
      tips := DismissedTips(tips, id);
    }

    method CompleteOnboarding()
      modifies this
      ensures Saved() == Persisted(true, false)
      ensures currentPose == old(currentPose) && currentMessage == old(currentMessage) && tips == old(tips)
    {
      hasCompletedOnboarding := true;
      isFirstVisit := false;
    }

    method SetFirstVisit(val: bool)
      modifies this
      ensures Saved() == old(Saved()).(isFirstVisit := val)
      ensures currentPose == old(currentPose) && currentMessage == old(currentMessage) && tips == old(tips)
    {
      isFirstVisit := val;
    }
  }
}
