/**
 * The slots of `getApp().globalData` and of local storage that the index and
 * profile pages read and write.  How app.js fills them at launch is not part
 * of this model, so a fresh `GlobalData` takes its initial contents as given.
 */
module AppGlobals {
  import opened Wrappers

  /** A user's WeChat profile, or `{}` where the pages fall back to an empty object. */
  datatype UserInfo = EmptyUserInfo | Profile(nickName: string, avatarUrl: string)

  class GlobalData {
    /** `globalData.userInfo` (None: null) */
    var userInfo: Option<UserInfo>
    /** `globalData.isLoggedIn` */
    var isLoggedIn: bool
    /** the `userInfo` key of local storage (None: never written) */
    var storedUserInfo: Option<UserInfo>

    constructor (userInfo: Option<UserInfo>, isLoggedIn: bool, storedUserInfo: Option<UserInfo>)
      ensures this.userInfo == userInfo && this.isLoggedIn == isLoggedIn && this.storedUserInfo == storedUserInfo
    {
      this.userInfo := userInfo;
      this.isLoggedIn := isLoggedIn;
      this.storedUserInfo := storedUserInfo;
    }
  }
}
