/**
 * The user's profile (AwarenessChatbot/UserProfiles .cs): the name and the
 * favourite topic the conversation remembers.
 */
module Profiles {

  class UserProfile {
    var name: string
    var favoriteTopic: string

    /** A new profile calls the user "User" and has no favourite topic. */
    constructor()
      ensures name == "User" && favoriteTopic == ""
    {
      name := "User";
      favoriteTopic := "";
    }
  }
}
