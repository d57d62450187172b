/**
 * The "Learn to Cook with AI" page: the favourite-recipe toggle, the welcome
 * modal opened on mount for a new user, and completing the profile.
 */
module LearnToCook {
  import opened Js

  datatype Recipe = Recipe(
    id: int, name: string, difficulty: string, time: string, cost: string, image: string, aiScore: nat)

  const Greeting: string := "Hello! I'm your AI cooking assistant. How can I help you today?"

  /** The recommendations the mount effect installs. */
  const RecommendedRecipes: seq<Recipe> := [
    Recipe(1, "Quinoa and Roasted Vegetable Bowl", "Easy", "30 min", "Medium",
      "https://images.unsplash.com/photo-1512621776951-a57141f2eefd?ixlib=rb-1.2.1&auto=format&fit=crop&w=800&q=80", 95),
    Recipe(2, "Energizing Green Smoothie", "Easy", "10 min", "Low",
      "https://images.unsplash.com/photo-1556881286-fc6915169721?ixlib=rb-1.2.1&auto=format&fit=crop&w=800&q=80", 88),
    Recipe(3, "Chickpea and Spinach Curry", "Medium", "40 min", "Medium",
      "https://images.unsplash.com/photo-1585937421612-70a008356fbe?ixlib=rb-1.2.1&auto=format&fit=crop&w=800&q=80", 92),
    Recipe(4, "Kale and Avocado Salad with Nuts", "Easy", "15 min", "Medium",
      "https://images.unsplash.com/photo-1512621776951-a57141f2eefd?ixlib=rb-1.2.1&auto=format&fit=crop&w=800&q=80", 90)
  ]

  /** The state update `toggleFavorite` queues: remove every occurrence, or append. */
  function ToggleFavorite(favorites: seq<int>, id: int): seq<int>
  {
    if id in favorites then Filter(favorites, (f: int) => f != id) else favorites + [id]
  }

  /**
   * An id not yet a favourite is appended at the end; one already there is
   * removed, every occurrence of it; every other id stays a favourite
   * exactly when it was one.
   */
  lemma ToggleFavoriteSpec(favorites: seq<int>, id: int)
    ensures id !in favorites ==> ToggleFavorite(favorites, id) == favorites + [id]
    ensures id in favorites ==> id !in ToggleFavorite(favorites, id)
    ensures forall other :: other != id ==> (other in ToggleFavorite(favorites, id) <==> other in favorites)
  {
    var r := ToggleFavorite(favorites, id);
    forall other | other != id ensures other in r <==> other in favorites {
      if other in favorites {
        var i :| 0 <= i < |favorites| && favorites[i] == other;
      }
      if other in r && id in favorites {
        var i :| 0 <= i < |r| && r[i] == other;
      }
    }
  }

  /** Toggling the same id twice, from a list without it, gives back that list. */
  lemma ToggleTwiceRestores(favorites: seq<int>, id: int)
    requires id !in favorites
    ensures ToggleFavorite(ToggleFavorite(favorites, id), id) == favorites
  {
    var p := (f: int) => f != id;
    assert id in favorites + [id];
    FilterAppend(favorites, [id], p);
    FilterKeepsAll(favorites, p);
    assert Filter([id], p) == [];
  }

  class CookPage {
    var assistantMessage: string
    var recommendedRecipes: seq<Recipe>
    var favorites: seq<int>
    var isNewUser: bool
    var isProfileComplete: bool
    var showWelcomeModal: bool

    constructor ()
      ensures assistantMessage == "" && recommendedRecipes == [] && favorites == []
      ensures isNewUser && !isProfileComplete && !showWelcomeModal
    {
      assistantMessage, recommendedRecipes, favorites := "", [], [];
      isNewUser, isProfileComplete, showWelcomeModal := true, false, false;
    }

    /**
     * The mount effect (re-run when `isNewUser` changes): a new user sees the
     * welcome modal; the assistant greets and the recommendations are set.
     */
    method Mount()
      modifies this`showWelcomeModal, this`assistantMessage, this`recommendedRecipes
      ensures showWelcomeModal == (isNewUser || old(showWelcomeModal))
      ensures assistantMessage == Greeting && recommendedRecipes == RecommendedRecipes
    {
      if isNewUser {
        showWelcomeModal := true;
      }
      assistantMessage := Greeting;
      recommendedRecipes := RecommendedRecipes;
    }

    /** The star on a recipe card. */
    method ToggleFavoriteClicked(id: int)
      modifies this`favorites
      ensures favorites == ToggleFavorite(old(favorites), id)
    {
      favorites := ToggleFavorite(favorites, id);
    }

    /** Whether a recipe card shows its star filled. */
    predicate IsFavorite(id: int)
      reads this
    {
      id in favorites
    }

    /** `handleCompleteProfile`: the profile is complete and the welcome modal closes. */
    method CompleteProfile()
      modifies this`isProfileComplete, this`showWelcomeModal
      ensures isProfileComplete && !showWelcomeModal
    {
      isProfileComplete := true;
      showWelcomeModal := false;
    }

    /** "Maybe Later" in the welcome modal. */
    method CloseWelcome()
      modifies this`showWelcomeModal
      ensures !showWelcomeModal
    {
      showWelcomeModal := false;
    }
  }
}
