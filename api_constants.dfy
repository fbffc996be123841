/** The string constants of `APIConstants`: the fixed base URL, the four endpoint templates and
    the default HTTP method. The other method names (POST, PUT, DELETE) are used by no call in
    the core and are left out; the floating-point timeout is not modelled. */
module APIConstants {

  const BaseURL := "https://jsonplaceholder.typicode.com"

  const UsersEndpoint := "/users"
  const PostsEndpoint := "/posts"
  const UserEndpoint := "/users/{id}"
  const UserPostsEndpoint := "/users/{id}/posts"

  const Get := "GET"
}
